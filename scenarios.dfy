/** Sequences of storage operations the test suite exercises: fresh constructions between two
    saves, and a save followed by a reload. */
module Scenarios {
  import opened Wrappers
  import opened Timestamps
  import opened Values
  import opened Schemas
  import opened Codec
  import opened Models

  /** Save, construct one fresh instance per id, save again. Ids that are distinct and not
      yet registered make the second file exactly one record per construction longer. */
  method FreshThenSave(storage: FileStorage, c: ClassName, ids: seq<string>,
                       createdAt: DateTime, updatedAt: DateTime)
    returns (before: nat, after: nat)
    modifies storage`objects, storage`file
    requires Distinct(ids) && KeysOf(c, ids) !! storage.objects.Keys
    ensures after == before + |ids|
    ensures storage.file.Some? && |storage.file.value| == after
    ensures storage.file == Some(Snapshot(storage.View()))
  {
    storage.Save();
    before := |storage.file.value|;
    assert storage.file.value.Keys == storage.objects.Keys;
    ghost var start := storage.objects.Keys;
    CreateFresh(storage, c, ids, createdAt, updatedAt);
    FreshKeys(c, ids, start);
    storage.Save();
    after := |storage.file.value|;
    assert storage.file.value.Keys == storage.objects.Keys;
  }

  /** One fresh construction per id: with distinct ids whose keys are not yet registered,
      the registry gains exactly their keys. */
  method CreateFresh(storage: FileStorage, c: ClassName, ids: seq<string>,
                     createdAt: DateTime, updatedAt: DateTime)
    modifies storage`objects
    requires Distinct(ids) && KeysOf(c, ids) !! storage.objects.Keys
    ensures storage.objects.Keys == old(storage.objects.Keys) + KeysOf(c, ids)
  {
    ghost var start := storage.objects.Keys;
    for i := 0 to |ids|
      invariant storage.objects.Keys == start + KeysOf(c, ids[..i])
    {
      NextKey(c, ids, i, start);
      Register(storage, c, ids[i], createdAt, updatedAt);
    }
    assert ids[..|ids|] == ids;
  }

  /** One fresh construction: the registry gains the key of the new instance. */
  method Register(storage: FileStorage, c: ClassName, id: string,
                  createdAt: DateTime, updatedAt: DateTime)
    modifies storage`objects
    ensures storage.objects.Keys == old(storage.objects.Keys) + {Key(c, Str(id))}
  {
    var made := BaseModel.Create(c, map[], id, createdAt, updatedAt, storage);
  }

  /** Distinct ids whose keys are not in `start` add exactly one key each. */
  lemma {:induction false} FreshKeys(c: ClassName, ids: seq<string>, start: set<string>)
    requires Distinct(ids) && KeysOf(c, ids) !! start
    ensures |start + KeysOf(c, ids)| == |start| + |ids|
  {
    if ids != [] {
      var n := |ids| - 1;
      FreshKeys(c, ids[..n], start);
      NextKey(c, ids, n, start);
      assert ids[..n + 1] == ids;
      assert start + KeysOf(c, ids) == (start + KeysOf(c, ids[..n])) + {Key(c, Str(ids[n]))};
    }
  }

  /** Registering the next id adds one key that was not there before. */
  lemma NextKey(c: ClassName, ids: seq<string>, i: nat, start: set<string>)
    requires i < |ids|
    requires Distinct(ids) && KeysOf(c, ids) !! start
    ensures KeysOf(c, ids[..i + 1]) == KeysOf(c, ids[..i]) + {Key(c, Str(ids[i]))}
    ensures Key(c, Str(ids[i])) !in start + KeysOf(c, ids[..i])
  {
    var pre, id := ids[..i], ids[i];
    assert ids[..i + 1][..i] == pre && ids[..i + 1][i] == id;
    assert id !in pre by {
      forall k | 0 <= k < i
        ensures pre[k] != id
      {
        assert pre[k] == ids[k];
      }
    }
    KeysOfIds(c, pre, id);
    assert id in ids;
    KeysOfIds(c, ids, id);
  }

  /** No id occurs twice. */
  predicate Distinct(ids: seq<string>) {
    forall i, j :: 0 <= i < j < |ids| ==> ids[i] != ids[j]
  }

  /** The keys instances of class `c` with the given ids are registered under. */
  ghost function KeysOf(c: ClassName, ids: seq<string>): set<string>
  {
    if ids == [] then {} else KeysOf(c, ids[..|ids| - 1]) + {Key(c, Str(ids[|ids| - 1]))}
  }

  /** An id's key is among those of `ids` only if the id is one of them. */
  lemma {:induction false} KeysOfIds(c: ClassName, ids: seq<string>, id: string)
    ensures Key(c, Str(id)) in KeysOf(c, ids) <==> id in ids
  {
    if ids != [] {
      var front, last := ids[..|ids| - 1], ids[|ids| - 1];
      assert ids == front + [last];
      KeysOfIds(c, front, id);
      if Key(c, Str(id)) == Key(c, Str(last)) {
        KeyInjective(c, Str(id), c, Str(last));
      }
    }
  }

  /** Save, then reload: with every instance well formed, `json.dump` can write the file,
      the reload succeeds and gives back
      the same keys, and under each key the same class and attributes, hence the same
      `to_dict()`. */
  method SaveThenReload(storage: FileStorage) returns (r: Outcome<Error>)
    modifies storage`objects, storage`file
    requires forall k :: k in storage.objects ==> WellFormed(storage.objects[k].attrs)
    ensures storage.file.Some? && Writable(storage.file.value)
    ensures r.Pass?
    ensures storage.objects.Keys == old(storage.objects.Keys)
    ensures storage.View() == old(storage.View())
    ensures forall k :: k in storage.objects ==>
              storage.objects[k].ToDict() == old(storage.objects[k].ToDict())
  {
    storage.Save();
    StoreRoundTrip(storage.View());
    r := storage.Reload();
  }
}
