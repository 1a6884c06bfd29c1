/** The seven model classes and the class-level attributes each declares: `BaseModel` and
    its subclasses `User`, `Place`, `Amenity`, `City`, `State` and `Review`. */
module Schemas {
  import opened Wrappers
  import opened Values

  datatype ClassName =
    | BaseModelClass | UserClass | PlaceClass | AmenityClass | CityClass | StateClass | ReviewClass

  /** `cls.__name__`. */
  function Name(c: ClassName): (n: string)
    ensures |n| > 0 && '.' !in n
  {
    match c
    case BaseModelClass => "BaseModel"
    case UserClass => "User"
    case PlaceClass => "Place"
    case AmenityClass => "Amenity"
    case CityClass => "City"
    case StateClass => "State"
    case ReviewClass => "Review"
  }

  lemma NameInjective(c1: ClassName, c2: ClassName)
    ensures Name(c1) == Name(c2) ==> c1 == c2
  {
  }

  /** The attributes a class declares in its own body (inherited ones excluded). */
  function Defaults(c: ClassName): map<string, Value> {
    match c
    case BaseModelClass => map[]
    case UserClass =>
      map["email" := Str(""), "password" := Str(""), "first_name" := Str(""), "last_name" := Str("")]
    case PlaceClass =>
      map["city_id" := Str(""), "user_id" := Str(""), "name" := Str(""), "description" := Str(""),
          "number_rooms" := Int(0), "number_bathrooms" := Int(0), "max_guest" := Int(0),
          "price_by_night" := Int(0), "latitude" := Float("0.0"), "longitude" := Float("0.0"),
          "amenity_ids" := List([])]
    case AmenityClass => map["name" := Str("")]
    case CityClass => map["name" := Str(""), "state_id" := Str("")]
    case StateClass => map["name" := Str("")]
    case ReviewClass => map["place_id" := Str(""), "user_id" := Str(""), "text" := Str("")]
  }

  /** Every declared default is the zero of its kind: the empty string, 0, 0.0 or the
      empty list; `BaseModel` itself declares none. */
  lemma ZeroDefaults(c: ClassName)
    ensures forall k :: k in Defaults(c) ==>
              Defaults(c)[k] in {Str(""), Int(0), Float("0.0"), List([])}
    ensures Defaults(BaseModelClass) == map[]
  {
  }

  /** Class attributes can be reassigned at run time (`User.email = ...`), so attribute
      lookup takes the current table of class attributes as a parameter. */
  type ClassTable = map<ClassName, map<string, Value>>

  /** The class attributes as the class bodies declare them. */
  function Declared(): ClassTable {
    map c: ClassName | true :: Defaults(c)
  }

  /** `getattr(obj, name)`: the instance's own value, else the attribute of its class, else
      the one `BaseModel` declares; absent everywhere is an AttributeError (None). */
  function Lookup(attrs: map<string, Value>, c: ClassName, table: ClassTable, name: string)
    : (r: Option<Value>)
    ensures name in attrs ==> r == Some(attrs[name])
    ensures name !in attrs && c in table && name in table[c] ==> r == Some(table[c][name])
    ensures r.Some? ==> name in attrs || (c in table && name in table[c])
                        || (BaseModelClass in table && name in table[BaseModelClass])
    ensures && name !in attrs && !(c in table && name in table[c])
            && BaseModelClass in table && name in table[BaseModelClass] ==>
              r == Some(table[BaseModelClass][name])
    ensures r.None? <==> && name !in attrs && !(c in table && name in table[c])
                         && !(BaseModelClass in table && name in table[BaseModelClass])
  {
    if name in attrs then Some(attrs[name])
    else if c in table && name in table[c] then Some(table[c][name])
    else if BaseModelClass in table && name in table[BaseModelClass] then
      Some(table[BaseModelClass][name])
    else None
  }
}
