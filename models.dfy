/** `BaseModel` instances and the `FileStorage` registry they are kept in. The two classes
    call each other (construction registers with the storage, `save` flushes it, `reload`
    constructs instances), so they share one module. The uuid generator and the clock are
    parameters: a fresh construction is given its id and its two clock readings. */
module Models {
  import opened Wrappers
  import opened Timestamps
  import opened Values
  import opened Schemas
  import opened Engine
  import opened Codec
  import opened Text

  /** What `__str__` renders as `[<class>] (<id>) <dict>`: the class name, the id and the
      instance attributes, with `datetime` values unconverted. */
  datatype Display = Display(className: string, id: Value, dict: Attrs)

  /** The registry key `"<class name>.<id>"` of an instance: the class name, a `.`, and
      `str()` of the id. */
  function Key(c: ClassName, id: Value): (k: string)
    ensures |k| == |Name(c)| + 1 + |ToText(id)|
    ensures k[..|Name(c)|] == Name(c) && k[|Name(c)|] == '.' && k[|Name(c)| + 1..] == ToText(id)
  {
    Name(c) + "." + ToText(id)
  }

  /** Class names contain no `.`, so a key determines the class and the text of the id. */
  lemma {:induction false} KeyInjective(c1: ClassName, id1: Value, c2: ClassName, id2: Value)
    requires Key(c1, id1) == Key(c2, id2)
    ensures c1 == c2 && ToText(id1) == ToText(id2)
  {
    assert Key(c1, id1) == Name(c1) + ['.'] + ToText(id1);
    assert Key(c2, id2) == Name(c2) + ['.'] + ToText(id2);
    SeparatedInjective(Name(c1), ToText(id1), Name(c2), ToText(id2), '.');
    NameInjective(c1, c2);
  }

  /** The attributes of a fresh instance: a new id and two clock readings. */
  function FreshAttrs(id: string, createdAt: DateTime, updatedAt: DateTime): (attrs: Attrs)
    ensures WellFormed(attrs)
  {
    map["id" := Str(id), "created_at" := Time(createdAt), "updated_at" := Time(updatedAt)]
  }

  /** A fresh instance reads every class default it does not set itself, and its
      `to_dict()` holds none of them: only the three attributes it was given and the tag. */
  lemma FreshReadsDefaults(c: ClassName, id: string, createdAt: DateTime, updatedAt: DateTime)
    ensures var attrs := FreshAttrs(id, createdAt, updatedAt);
            forall name :: name in Defaults(c) && name !in attrs ==>
              Lookup(attrs, c, Declared(), name) == Some(Defaults(c)[name])
    ensures Codec.ToDict(c, FreshAttrs(id, createdAt, updatedAt)).Keys ==
              {"id", "created_at", "updated_at", ClassKey}
  {
  }

  /** An instance of `BaseModel` or of one of its subclasses. */
  class BaseModel {
    const cls: ClassName
    var attrs: Attrs

    /** The no-keyword branch of `__init__` before it registers the instance. */
    constructor Fresh(c: ClassName, id: string, createdAt: DateTime, updatedAt: DateTime)
      ensures cls == c && attrs == FreshAttrs(id, createdAt, updatedAt)
    {
      cls := c;
      attrs := FreshAttrs(id, createdAt, updatedAt);
    }

    /** The keyword branch of `__init__` once its arguments have been decoded. */
    constructor Restored(c: ClassName, decoded: Attrs)
      ensures cls == c && attrs == decoded
    {
      cls := c;
      attrs := decoded;
    }

    /** `cls(*args, **kwargs)`. Positional arguments are ignored, so they are not
        parameters. No keyword arguments (an empty dict included): a fresh instance with
        the given id and clock readings, registered under `"<class>.<id>"`. Otherwise the
        keyword arguments are decoded and the registry and the file are left alone. */
    static method Create(c: ClassName, kwargs: Record, id: string,
                         createdAt: DateTime, updatedAt: DateTime, storage: FileStorage)
      returns (r: Result<BaseModel, Error>)
      modifies storage`objects
      ensures r.Success? ==> fresh(r.value) && r.value.cls == c
      ensures |kwargs| == 0 ==>
                && r.Success?
                && r.value.attrs == FreshAttrs(id, createdAt, updatedAt)
                && storage.objects == old(storage.objects)[Key(c, Str(id)) := r.value]
      ensures |kwargs| > 0 ==>
                && storage.objects == old(storage.objects)
                && (r.Success? <==> Reconstructible(kwargs))
                && (r.Success? ==> r.value.attrs == Reconstructed(kwargs))
                && (r.Failure? ==> IsProblem(kwargs, r.error))
                && (SelfKey in kwargs ==> r == Failure(SelfArgument))
    {
      if |kwargs| == 0 {
        var m := new BaseModel.Fresh(c, id, createdAt, updatedAt);
        var registered := storage.New(m);
        r := Success(m);
      } else {
        var decoded := DecodeKwargs(kwargs);
        if decoded.Failure? {
          return Failure(decoded.error);
        }
        var m := new BaseModel.Restored(c, decoded.value);
        r := Success(m);
      }
    }

    /** Binding the keyword arguments to `__init__`, then its loop over them. A keyword
        `self` raises at the call, before the loop. In the loop `__class__` is skipped, the
        two timestamps are parsed from ISO text, every other value is assigned as it is. The
        first argument that raises stops the loop; the dict's order is not modelled, so the
        error reported is the one of some offending argument. */
    static method DecodeKwargs(kwargs: Record) returns (r: Result<Attrs, Error>)
      ensures r.Success? <==> Reconstructible(kwargs)
      ensures r.Success? ==> r.value == Reconstructed(kwargs)
      ensures r.Failure? ==> IsProblem(kwargs, r.error)
      ensures SelfKey in kwargs ==> r == Failure(SelfArgument)
    {
      if SelfKey in kwargs {
        assert AttrProblem(SelfKey, kwargs[SelfKey]) == Some(SelfArgument);
        return Failure(SelfArgument);
      }
      var remaining := kwargs.Keys;
      var decoded: Attrs := map[];
      while remaining != {}
        invariant remaining <= kwargs.Keys
        invariant forall k :: k in kwargs && k !in remaining ==> AttrProblem(k, kwargs[k]).None?
        invariant decoded.Keys == kwargs.Keys - remaining - {ClassKey}
        invariant forall k :: k in decoded ==> decoded[k] == Decode(k, kwargs[k])
        decreases remaining
      {
        var k :| k in remaining;
        remaining := remaining - {k};
        var v := kwargs[k];
        if k != ClassKey {
          if k in TimestampKeys {
            if !v.Str? {
              return Failure(TimestampNotText(k));
            }
            var t := ParseIso(v.s);
            if t.None? {
              return Failure(TimestampNotIso(k));
            }
            v := Time(t.value);
          }
          if k in ReadOnlyKeys {
            return Failure(ReadOnlyAttribute(k));
          }
          decoded := decoded[k := v];
        }
      }
      r := Success(decoded);
    }

    /** `getattr(self, name)` with the class attributes as declared: the instance's own
        value, else the default its class declares, else AttributeError (None). */
    function Get(name: string): (r: Option<Value>)
      reads this
      ensures name in attrs ==> r == Some(attrs[name])
      ensures name !in attrs ==>
                r == (if name in Defaults(cls) then Some(Defaults(cls)[name]) else None)
    {
      Lookup(attrs, cls, Declared(), name)
    }

    function ToDict(): Record
      reads this
    {
      Codec.ToDict(cls, attrs)
    }

    /** `__str__`: fails with AttributeError when the instance has no `id`. */
    function Render(): (r: Result<Display, Error>)
      reads this
      ensures r.Success? <==> "id" in attrs
      ensures r.Failure? ==> r.error == MissingAttribute("id")
      ensures r.Success? ==> r.value == Display(Name(cls), attrs["id"], attrs)
    {
      match Get("id")
      case Some(id) => Success(Display(Name(cls), id, attrs))
      case None => Failure(MissingAttribute("id"))
    }

    /** `save()`: refresh `updated_at` from the clock, then write the whole registry. */
    method Save(storage: FileStorage, now: DateTime)
      modifies this`attrs, storage`file
      ensures attrs == old(attrs)["updated_at" := Time(now)]
      ensures storage.file == Some(Snapshot(storage.View()))
    {
      attrs := attrs["updated_at" := Time(now)];
      storage.Save();
    }
  }

  /** The registry of live instances and the JSON file it is written to, the file being
      the mapping of records it holds, or None when there is no file. */
  class FileStorage {
    var objects: map<string, BaseModel>
    var file: Option<map<string, Record>>

    /** A storage over the file as found on disk, with an empty registry. */
    constructor(onDisk: Option<map<string, Record>>)
      ensures objects == map[] && file == onDisk
    {
      objects := map[];
      file := onDisk;
    }

    /** `all()`: the registry itself, not a copy. Callers read it through the storage, so
        they see every later `new`, deletion and `reload`. */
    function All(): (r: map<string, BaseModel>)
      reads this
      ensures r == objects
    {
      objects
    }

    /** Class and attributes under each key. */
    function View(): map<string, Entity>
      reads this`objects, objects.Values
    {
      map k | k in objects :: Entity(objects[k].cls, objects[k].attrs)
    }

    /** The view depends on the registry and the instances in it, and on nothing else. */
    static twostate lemma SameView(s: FileStorage)
      requires unchanged(s`objects) && unchanged(s.objects.Values)
      ensures s.View() == old(s.View())
    {
    }

    /** The view has the registry's keys. */
    lemma ViewKeys()
      ensures View().Keys == objects.Keys
    {
    }

    /** `new(obj)`: set exactly the slot `"<class>.<id>"` to `obj`, replacing what was
        there; an instance without an `id` raises AttributeError and changes nothing. */
    method New(obj: BaseModel) returns (r: Outcome<Error>)
      modifies this`objects
      ensures r.Pass? <==> obj.Get("id").Some?
      ensures r.Pass? ==> objects == old(objects)[Key(obj.cls, obj.Get("id").value) := obj]
      ensures r.Fail? ==> r.error == MissingAttribute("id") && objects == old(objects)
    {
      var id := obj.Get("id");
      if id.None? {
        return Fail(MissingAttribute("id"));
      }
      objects := objects[Key(obj.cls, id.value) := obj];
      r := Pass;
    }

    /** `save()`: the file becomes exactly one record per registry key, the `to_dict()` of
        the instance under that key. */
    method Save()
      modifies this`file
      ensures file == Some(Snapshot(View()))
    {
      file := Some(Snapshot(View()));
      SameView(this);
    }

    /** `reload()`: without a file nothing changes. Otherwise the registry is replaced
        wholesale by one new instance per record, each built from the record's class tag
        and attributes; if any record cannot be rebuilt the error propagates and the
        registry is left as it was. */
    method Reload() returns (r: Outcome<Error>)
      modifies this`objects
      ensures file.None? ==> r.Pass? && objects == old(objects)
      ensures file.Some? ==> (r.Pass? <==> AllRebuildable(file.value))
      ensures r.Pass? && file.Some? ==>
                && AllRebuildable(file.value)
                && objects.Keys == file.value.Keys
                && (forall k :: k in objects ==> fresh(objects[k]))
                && (forall k1, k2 :: k1 in objects && k2 in objects && k1 != k2 ==>
                      objects[k1] != objects[k2])
                && View() == Restore(file.value)
      ensures r.Fail? ==>
                && objects == old(objects)
                && file.Some?
                && exists k :: k in file.value && IsRecordProblem(file.value[k], r.error)
    {
      if file.None? {
        return Pass;
      }
      var built := RebuildAll(file.value);
      if built.Failure? {
        return Fail(built.error);
      }
      objects := built.value;
      assert View() == Restore(file.value) by {
        forall k | k in file.value
          ensures View()[k] == Restore(file.value)[k]
        {
        }
      }
      r := Pass;
    }

    /** The loop of `reload()`: one new instance per record, each of the record's tagged
        class and reconstructed from it; the first record that cannot be rebuilt stops the
        loop with its error. */
    static method RebuildAll(records: map<string, Record>) returns (r: Result<map<string, BaseModel>, Error>)
      ensures r.Success? <==> AllRebuildable(records)
      ensures r.Success? ==>
                && r.value.Keys == records.Keys
                && (forall k :: k in r.value ==> fresh(r.value[k]))
                && (forall k1, k2 :: k1 in r.value && k2 in r.value && k1 != k2 ==>
                      r.value[k1] != r.value[k2])
                && (forall k :: k in r.value ==>
                      Entity(r.value[k].cls, r.value[k].attrs) == Rebuilt(records[k]))
      ensures r.Failure? ==> exists k :: k in records && IsRecordProblem(records[k], r.error)
    {
      var remaining := records.Keys;
      var built: map<string, BaseModel> := map[];
      while remaining != {}
        invariant remaining <= records.Keys
        invariant built.Keys == records.Keys - remaining
        invariant forall k :: k in built ==> Rebuildable(records[k])
        invariant forall k :: k in built ==> fresh(built[k])
        invariant forall k :: k in built ==>
                    Entity(built[k].cls, built[k].attrs) == Rebuilt(records[k])
        invariant forall k1, k2 :: k1 in built && k2 in built && k1 != k2 ==>
                    built[k1] != built[k2]
        decreases remaining
      {
        var k :| k in remaining;
        remaining := remaining - {k};
        var rec := records[k];
        if ClassKey !in rec {
          return Failure(MissingClassTag);
        }
        var c := Dispatch(rec[ClassKey]);
        if c.None? {
          return Failure(UnknownClassTag(rec[ClassKey]));
        }
        var decoded := BaseModel.DecodeKwargs(rec);
        if decoded.Failure? {
          return Failure(decoded.error);
        }
        var m := new BaseModel.Restored(c.value, decoded.value);
        built := built[k := m];
      }
      r := Success(built);
    }
  }
}
