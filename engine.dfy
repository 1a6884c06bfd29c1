/** `models.engine.import_all_classes`: the table from class name to class that `reload`
    uses to turn a record's `__class__` tag back into a class. */
module Engine {
  import opened Wrappers
  import opened Values
  import opened Schemas

  const ClassNames: set<string> :=
    {"BaseModel", "User", "Place", "Amenity", "City", "State", "Review"}

  /** Exactly the seven class names, each mapped to the class of that name, and every
      class reachable under its own name. */
  function ImportAllClasses(): (table: map<string, ClassName>)
    ensures table.Keys == ClassNames
    ensures forall n :: n in table ==> Name(table[n]) == n
    ensures forall c :: Name(c) in table && table[Name(c)] == c
  {
    map["User" := UserClass, "BaseModel" := BaseModelClass, "Place" := PlaceClass,
        "Amenity" := AmenityClass, "City" := CityClass, "State" := StateClass,
        "Review" := ReviewClass]
  }

  /** The class a `__class__` tag names; None when the tag is not a string naming one of
      the seven classes. */
  function Dispatch(tag: Value): (r: Option<ClassName>)
    ensures r.Some? <==> tag.Str? && tag.s in ClassNames
    ensures r.Some? ==> Str(Name(r.value)) == tag
  {
    if tag.Str? && tag.s in ImportAllClasses() then Some(ImportAllClasses()[tag.s]) else None
  }

  /** The tag `to_dict` writes dispatches back to the class that wrote it. */
  lemma DispatchName(c: ClassName)
    ensures Dispatch(Str(Name(c))) == Some(c)
  {
  }
}
