/** The record codec of `BaseModel`: `to_dict` turns an instance into the flat record
    written to `file.json`, and the keyword-argument branch of `__init__`, dispatched on the
    record's `__class__` tag, turns a record back into an instance. */
module Codec {
  import opened Wrappers
  import opened Timestamps
  import opened Values
  import opened Schemas
  import opened Engine

  /** An instance's `__dict__`. */
  type Attrs = map<string, Value>

  /** One object of `file.json`, or the keyword arguments given to `__init__`. */
  type Record = map<string, Value>

  /** An instance's class and its own attributes. */
  datatype Entity = Entity(cls: ClassName, attrs: Attrs)

  const ClassKey := "__class__"
  const TimestampKeys: set<string> := {"created_at", "updated_at"}

  /** Attribute names `setattr` refuses for the values a record can hold. */
  const ReadOnlyKeys: set<string> := {"__dict__", "__weakref__"}

  /** The name of the first parameter of every `__init__`, which no keyword argument may
      take. */
  const SelfKey := "self"

  // ---------------------------------------------------------------------------
  // to_dict
  // ---------------------------------------------------------------------------

  /** How `to_dict` writes one attribute: a `datetime` as its ISO text, anything else as it is. */
  function Encode(v: Value): Value {
    if v.Time? then Str(Iso(v.t)) else v
  }

  /** `to_dict()`: every instance attribute, `datetime` values as ISO text, plus `__class__`
      naming the class (overriding any attribute of that name). Class attributes that the
      instance does not override are not part of it. */
  function ToDict(c: ClassName, attrs: Attrs): (r: Record)
    ensures r.Keys == attrs.Keys + {ClassKey}
    ensures r[ClassKey] == Str(Name(c))
    ensures forall k :: k in r ==> !r[k].Time?
  {
    (map k | k in attrs :: Encode(attrs[k]))[ClassKey := Str(Name(c))]
  }

  /** Under every other key `to_dict()` holds the attribute itself, or the ISO text of a
      `datetime` attribute. */
  lemma ToDictValues(c: ClassName, attrs: Attrs)
    ensures forall k :: k in attrs && k != ClassKey && !attrs[k].Time? ==>
              ToDict(c, attrs)[k] == attrs[k]
    ensures forall k :: k in attrs && k != ClassKey && attrs[k].Time? ==>
              ToDict(c, attrs)[k] == Str(Iso(attrs[k].t))
  {
  }

  // ---------------------------------------------------------------------------
  // Reconstruction from keyword arguments
  // ---------------------------------------------------------------------------

  /** What passing and assigning one keyword argument raises, if anything: `self` collides
      with the parameter of `__init__`, `__class__` is skipped, a timestamp must be ISO text,
      and a read-only attribute cannot be set. */
  function AttrProblem(key: string, v: Value): Option<Error> {
    if key == SelfKey then Some(SelfArgument)
    else if key == ClassKey then None
    else if key in TimestampKeys && !v.Str? then Some(TimestampNotText(key))
    else if key in TimestampKeys && ParseIso(v.s).None? then Some(TimestampNotIso(key))
    else if key in ReadOnlyKeys then Some(ReadOnlyAttribute(key))
    else None
  }

  /** The attribute value one accepted keyword argument becomes. */
  function Decode(key: string, v: Value): Value
    requires AttrProblem(key, v).None?
  {
    if key in TimestampKeys then Time(ParseIso(v.s).value) else v
  }

  /** No keyword argument raises. */
  predicate Reconstructible(kwargs: Record) {
    forall k :: k in kwargs ==> AttrProblem(k, kwargs[k]).None?
  }

  /** `e` is what some keyword argument raises. */
  predicate IsProblem(kwargs: Record, e: Error) {
    exists k :: k in kwargs && AttrProblem(k, kwargs[k]) == Some(e)
  }

  /** The `__dict__` built from keyword arguments: every key but `__class__`, with the two
      timestamps parsed. Without an `id` keyword there is no `id` attribute. */
  function Reconstructed(kwargs: Record): (attrs: Attrs)
    requires Reconstructible(kwargs)
    ensures attrs.Keys == kwargs.Keys - {ClassKey}
  {
    map k | k in kwargs && k != ClassKey :: Decode(k, kwargs[k])
  }

  lemma ReconstructibleIffNoProblem(kwargs: Record)
    ensures Reconstructible(kwargs) <==> forall e :: !IsProblem(kwargs, e)
  {
    if !Reconstructible(kwargs) {
      var k :| k in kwargs && AttrProblem(k, kwargs[k]).Some?;
      assert IsProblem(kwargs, AttrProblem(k, kwargs[k]).value);
    }
  }

  /** A timestamp that is not a string raises TypeError; a string that is not ISO text
      raises ValueError. */
  lemma BadTimestamp(kwargs: Record, key: string)
    requires key in TimestampKeys && key in kwargs
    ensures !kwargs[key].Str? ==> !Reconstructible(kwargs) && IsProblem(kwargs, TimestampNotText(key))
    ensures kwargs[key].Str? && ParseIso(kwargs[key].s).None? ==>
              !Reconstructible(kwargs) && IsProblem(kwargs, TimestampNotIso(key))
  {
  }

  /** A keyword `self` raises TypeError, whatever the other arguments are. */
  lemma SelfKeyword(kwargs: Record)
    requires SelfKey in kwargs
    ensures !Reconstructible(kwargs) && IsProblem(kwargs, SelfArgument)
  {
    assert AttrProblem(SelfKey, kwargs[SelfKey]) == Some(SelfArgument);
  }

  // ---------------------------------------------------------------------------
  // Records of file.json: dispatch on the `__class__` tag
  // ---------------------------------------------------------------------------

  /** A record `reload` can rebuild: tagged with a known class and reconstructible. */
  predicate Rebuildable(rec: Record) {
    ClassKey in rec && Dispatch(rec[ClassKey]).Some? && Reconstructible(rec)
  }

  /** The instance `reload` builds from a record: the tagged class, called with the record
      as keyword arguments. */
  function Rebuilt(rec: Record): (e: Entity)
    requires Rebuildable(rec)
    ensures Str(Name(e.cls)) == rec[ClassKey]
  {
    Entity(Dispatch(rec[ClassKey]).value, Reconstructed(rec))
  }

  /** What rebuilding a record raises: a missing tag (KeyError), a tag naming no class, or
      the problem of one of its keyword arguments. */
  predicate IsRecordProblem(rec: Record, e: Error) {
    if ClassKey !in rec then e == MissingClassTag
    else if Dispatch(rec[ClassKey]).None? then e == UnknownClassTag(rec[ClassKey])
    else IsProblem(rec, e)
  }

  lemma RebuildableIffNoProblem(rec: Record)
    ensures Rebuildable(rec) <==> forall e :: !IsRecordProblem(rec, e)
  {
    if ClassKey !in rec {
      assert IsRecordProblem(rec, MissingClassTag);
    } else if Dispatch(rec[ClassKey]).None? {
      assert IsRecordProblem(rec, UnknownClassTag(rec[ClassKey]));
    } else {
      ReconstructibleIffNoProblem(rec);
      forall e ensures IsRecordProblem(rec, e) == IsProblem(rec, e) {}
    }
  }

  // ---------------------------------------------------------------------------
  // Round trip
  // ---------------------------------------------------------------------------

  /** The attributes the program gives an instance: `datetime` values exactly at the two
      timestamp keys and nowhere inside a list, and no `__class__`, `self` or read-only name
      among the keys. */
  predicate WellFormed(attrs: Attrs) {
    && ClassKey !in attrs
    && SelfKey !in attrs
    && (forall k :: k in attrs ==> k !in ReadOnlyKeys)
    && (forall k :: k in attrs ==> (attrs[k].Time? <==> k in TimestampKeys))
    && (forall k :: k in attrs ==> Serializable(Encode(attrs[k])))
  }

  /** Reconstructing from `to_dict()` gives the same class and the same instance
      attributes; `__class__` does not become an attribute. */
  lemma {:induction false} EntityRoundTrip(c: ClassName, attrs: Attrs)
    requires WellFormed(attrs)
    ensures Rebuildable(ToDict(c, attrs))
    ensures Rebuilt(ToDict(c, attrs)) == Entity(c, attrs)
  {
    var rec := ToDict(c, attrs);
    DispatchName(c);
    forall k | k in rec
      ensures AttrProblem(k, rec[k]).None?
      ensures k != ClassKey ==> Decode(k, rec[k]) == attrs[k]
    {
      if k != ClassKey {
        TimestampRoundTrip(attrs, k);
      }
    }
    assert Reconstructible(rec);
    assert Reconstructed(rec) == attrs;
  }

  /** One attribute written by `to_dict` is read back as the same value. */
  lemma TimestampRoundTrip(attrs: Attrs, k: string)
    requires WellFormed(attrs) && k in attrs
    ensures AttrProblem(k, Encode(attrs[k])).None?
    ensures Decode(k, Encode(attrs[k])) == attrs[k]
  {
    if k in TimestampKeys {
      IsoRoundTrip(attrs[k].t);
    }
  }

  /** The whole file written from a registry view. */
  function Snapshot(view: map<string, Entity>): (file: map<string, Record>)
    ensures file.Keys == view.Keys
  {
    map k | k in view :: ToDict(view[k].cls, view[k].attrs)
  }

  /** Whether `json.dump` can write every value of every record of the file. */
  predicate Writable(file: map<string, Record>) {
    forall k, a :: k in file && a in file[k] ==> Serializable(file[k][a])
  }

  /** A `datetime` inside a list attribute survives `to_dict`, so `json.dump` cannot write
      the snapshot (it raises TypeError after `file.json` has been opened for writing). */
  lemma NestedTimeUnwritable(view: map<string, Entity>, k: string, a: string, i: nat)
    requires k in view && a in view[k].attrs && a != ClassKey
    requires view[k].attrs[a].List? && i < |view[k].attrs[a].items|
    requires view[k].attrs[a].items[i].Time?
    ensures !Writable(Snapshot(view))
  {
    assert Snapshot(view)[k][a] == view[k].attrs[a];
    assert !Serializable(Snapshot(view)[k][a]);
  }

  /** The snapshot of well-formed instances holds no value `json.dump` cannot write. */
  lemma SnapshotWritable(view: map<string, Entity>)
    requires forall k :: k in view ==> WellFormed(view[k].attrs)
    ensures Writable(Snapshot(view))
  {
    forall k, a | k in Snapshot(view) && a in Snapshot(view)[k]
      ensures Serializable(Snapshot(view)[k][a])
    {
      if a != ClassKey {
        assert Snapshot(view)[k][a] == Encode(view[k].attrs[a]);
      }
    }
  }

  predicate AllRebuildable(file: map<string, Record>) {
    forall k :: k in file ==> Rebuildable(file[k])
  }

  /** The registry view `reload` builds from a file whose records are all rebuildable. */
  function Restore(file: map<string, Record>): (view: map<string, Entity>)
    requires AllRebuildable(file)
    ensures view.Keys == file.Keys
  {
    map k | k in file :: Rebuilt(file[k])
  }

  /** Writing the registry and reading it back gives the same keys, and under each key the
      same class and attributes, hence the same `to_dict()`. */
  lemma {:induction false} StoreRoundTrip(view: map<string, Entity>)
    requires forall k :: k in view ==> WellFormed(view[k].attrs)
    ensures Writable(Snapshot(view))
    ensures AllRebuildable(Snapshot(view))
    ensures Restore(Snapshot(view)) == view
    ensures forall k :: k in view ==>
              ToDict(Restore(Snapshot(view))[k].cls, Restore(Snapshot(view))[k].attrs)
              == Snapshot(view)[k]
  {
    forall k | k in view
      ensures Rebuildable(Snapshot(view)[k]) && Rebuilt(Snapshot(view)[k]) == view[k]
    {
      EntityRoundTrip(view[k].cls, view[k].attrs);
    }
    assert Restore(Snapshot(view)) == view;
    SnapshotWritable(view);
  }
}
