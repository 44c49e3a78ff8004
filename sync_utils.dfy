/**
 * State comparison and conflict resolution for the file synchronisation:
 * structural equality as the conflict test, the three resolution
 * strategies, and the per-id last-writer-wins merge that the source builds
 * with insertion-ordered JavaScript `Map`s.
 *
 * `JSON.stringify(a) === JSON.stringify(b)` is modelled as equality of the
 * two values. The resolution time (`new Date().toISOString()`) is a
 * parameter.
 */
module SyncUtils {
  import opened Types

  // ----------------------------------------------------------- comparison

  /**
   * `compareStates`: the two states serialise to the same text, taken as
   * equal values. Every part of a state takes part, the whole-state
   * timestamp included.
   */
  function CompareStates(state1: CanvasState, state2: CanvasState): (r: bool)
    ensures r <==> && state1.canvas == state2.canvas && state1.objects == state2.objects
                   && state1.strokes == state2.strokes && state1.toolButtons == state2.toolButtons
                   && state1.lastModified == state2.lastModified
  {
    state1 == state2
  }

  /** `detectConflict`: a conflict is any difference at all, in any part of the state. */
  function DetectConflict(localState: CanvasState, remoteState: CanvasState): (r: bool)
    ensures r <==> || localState.canvas != remoteState.canvas || localState.objects != remoteState.objects
                   || localState.strokes != remoteState.strokes
                   || localState.toolButtons != remoteState.toolButtons
                   || localState.lastModified != remoteState.lastModified
  {
    !CompareStates(localState, remoteState)
  }

  /**
   * A state never conflicts with itself, and a conflict is exactly a failed
   * comparison: a difference in the whole-state timestamp alone is one.
   */
  lemma ConflictIsInequality(s: CanvasState, t: CanvasState, stamp: string)
    ensures !DetectConflict(s, s)
    ensures DetectConflict(s, t) <==> !CompareStates(s, t)
    ensures stamp != s.lastModified ==> DetectConflict(s, s.(lastModified := stamp))
  {
  }

  // -------------------------------------------------- insertion-ordered map

  /**
   * A JavaScript `Map` from ids to values: `keys` in insertion order,
   * `entries` the current value of each key. Setting a key that is already
   * present replaces its value and keeps its place.
   */
  datatype IdMap<T> = IdMap(keys: seq<string>, entries: map<string, T>)

  const EmptyMap: IdMap<CanvasObject> := IdMap([], map[])

  function Set<T>(m: IdMap<T>, k: string, v: T): IdMap<T>
  {
    if k in m.entries then IdMap(m.keys, m.entries[k := v]) else IdMap(m.keys + [k], m.entries[k := v])
  }

  /** `Array.from(m.values())`. */
  function Values<T>(m: IdMap<T>): (r: seq<T>)
    requires forall k :: k in m.keys ==> k in m.entries
    ensures |r| == |m.keys|
    ensures forall i :: 0 <= i < |m.keys| ==> r[i] == m.entries[m.keys[i]]
  {
    seq(|m.keys|, i requires 0 <= i < |m.keys| => m.entries[m.keys[i]])
  }

  ghost predicate Distinct(s: seq<string>)
  {
    forall i, j :: 0 <= i < j < |s| ==> s[i] != s[j]
  }

  /** Each key appears once, keys and entries agree, and each value sits under its own id. */
  ghost predicate WellFormed<T>(m: IdMap<T>, key: T -> string)
  {
    && Distinct(m.keys)
    && (forall k :: k in m.entries <==> k in m.keys)
    && (forall k :: k in m.entries ==> key(m.entries[k]) == k)
  }

  lemma SetWellFormed<T>(m: IdMap<T>, v: T, key: T -> string)
    requires WellFormed(m, key)
    ensures WellFormed(Set(m, key(v), v), key)
  {
  }

  // ------------------------------------------------------ merge as written

  /** The loop over the local items: every item `set` under its id, in order. */
  function SetAll<T>(items: seq<T>, key: T -> string): IdMap<T>
    decreases |items|
  {
    if items == [] then IdMap([], map[])
    else
      var last := items[|items| - 1];
      Set(SetAll(items[..|items| - 1], key), key(last), last)
  }

  /**
   * The loop over the remote items: an item is `set` when its id is not in
   * the map yet, or when it is newer than the value already there.
   */
  function SetNewer<T>(m: IdMap<T>, items: seq<T>, key: T -> string, newer: (T, T) -> bool): IdMap<T>
    decreases |items|
  {
    if items == [] then m
    else
      SetOne(SetNewer(m, items[..|items| - 1], key, newer), items[|items| - 1], key, newer)
  }

  /** One pass of the remote loop. */
  function SetOne<T>(m: IdMap<T>, item: T, key: T -> string, newer: (T, T) -> bool): IdMap<T>
  {
    var k := key(item);
    if k !in m.entries || newer(item, m.entries[k]) then Set(m, k, item) else m
  }

  lemma {:induction false} SetAllWellFormed<T>(items: seq<T>, key: T -> string)
    ensures WellFormed(SetAll(items, key), key)
    decreases |items|
  {
    if items != [] {
      SetAllWellFormed(items[..|items| - 1], key);
      SetWellFormed(SetAll(items[..|items| - 1], key), items[|items| - 1], key);
    }
  }

  lemma {:induction false} SetNewerWellFormed<T>(m: IdMap<T>, items: seq<T>, key: T -> string,
                                                newer: (T, T) -> bool)
    requires WellFormed(m, key)
    ensures WellFormed(SetNewer(m, items, key, newer), key)
    decreases |items|
  {
    if items != [] {
      SetNewerWellFormed(m, items[..|items| - 1], key, newer);
      SetWellFormed(SetNewer(m, items[..|items| - 1], key, newer), items[|items| - 1], key);
    }
  }

  /** The merge of `mergeStates`, for either kind of item. */
  function Merged<T>(local: seq<T>, remote: seq<T>, key: T -> string, newer: (T, T) -> bool): seq<T>
  {
    var m := SetNewer(SetAll(local, key), remote, key, newer);
    SetAllWellFormed(local, key);
    SetNewerWellFormed(SetAll(local, key), remote, key, newer);
    Values(m)
  }

  /**
   * The two loops and the read-out of `mergeStates`, on one kind of item.
   * `key` gives an item's id; `newer(a, b)` is the source's
   * `a.lastModified > b.lastModified`.
   */
  method MergeById<T>(local: seq<T>, remote: seq<T>, key: T -> string, newer: (T, T) -> bool)
    returns (merged: seq<T>)
    ensures merged == Merged(local, remote, key, newer)
  {
    var keys: seq<string> := [];
    var entries: map<string, T> := map[];
    for i := 0 to |local|
      invariant IdMap(keys, entries) == SetAll(local[..i], key)
    {
      var item := local[i];
      var k := key(item);
      if k !in entries {
        keys := keys + [k];
      }
      entries := entries[k := item];
      assert local[..i + 1][..i] == local[..i];
    }
    assert local[..|local|] == local;
    ghost var afterLocal := IdMap(keys, entries);
    for i := 0 to |remote|
      invariant IdMap(keys, entries) == SetNewer(afterLocal, remote[..i], key, newer)
    {
      var item := remote[i];
      var k := key(item);
      if k !in entries || newer(item, entries[k]) {
        if k !in entries {
          keys := keys + [k];
        }
        entries := entries[k := item];
      }
      assert remote[..i + 1][..i] == remote[..i];
    }
    assert remote[..|remote|] == remote;
    SetAllWellFormed(local, key);
    SetNewerWellFormed(afterLocal, remote, key, newer);
    merged := [];
    for i := 0 to |keys|
      invariant |merged| == i
      invariant forall j :: 0 <= j < i ==> merged[j] == entries[keys[j]]
    {
      merged := merged + [entries[keys[i]]];
    }
  }

  // ------------------------------------------- what the merge amounts to

  function Keys<T>(items: seq<T>, key: T -> string): (r: seq<string>)
    ensures |r| == |items| && forall i :: 0 <= i < |items| ==> r[i] == key(items[i])
  {
    seq(|items|, i requires 0 <= i < |items| => key(items[i]))
  }

  function KeySet<T>(items: seq<T>, key: T -> string): set<string>
  {
    set i | 0 <= i < |items| :: key(items[i])
  }

  /** The first item with id `k`. */
  function FindByKey<T>(items: seq<T>, k: string, key: T -> string): (r: Option<T>)
    ensures r.Some? ==> r.value in items && key(r.value) == k
    ensures r.None? ==> forall i :: 0 <= i < |items| ==> key(items[i]) != k
    ensures r.Some? ==> exists i :: 0 <= i < |items| && items[i] == r.value &&
                                    forall j :: 0 <= j < i ==> key(items[j]) != k
    decreases |items|
  {
    if items == [] then None
    else
      var found := FindByKey(items[..|items| - 1], k, key);
      var last := items[|items| - 1];
      if found.Some? then found else if key(last) == k then Some(last) else None
  }

  /** The local item, or the remote item with its id when that one is newer. */
  function Winner<T>(localItem: T, remote: seq<T>, key: T -> string, newer: (T, T) -> bool): T
  {
    match FindByKey(remote, key(localItem), key)
    case Some(r) => if newer(r, localItem) then r else localItem
    case None => localItem
  }

  /** The remote items whose ids are not in `taken`, in remote order. */
  function RemoteOnly<T>(remote: seq<T>, taken: set<string>, key: T -> string): (r: seq<T>)
    ensures forall i :: 0 <= i < |r| ==> r[i] in remote && key(r[i]) !in taken
    ensures forall i :: 0 <= i < |remote| && key(remote[i]) !in taken ==> remote[i] in r
    decreases |remote|
  {
    if remote == [] then []
    else
      var last := remote[|remote| - 1];
      RemoteOnly(remote[..|remote| - 1], taken, key) + (if key(last) in taken then [] else [last])
  }

  /**
   * An independent statement of the merge for lists with distinct ids: the
   * local items in local order, each replaced by the remote item with its id
   * when that one is newer, then the remote items with new ids in remote
   * order.
   */
  function MergeReference<T>(local: seq<T>, remote: seq<T>, key: T -> string, newer: (T, T) -> bool)
    : (r: seq<T>)
    ensures |r| >= |local|
    ensures forall i :: 0 <= i < |local| ==> r[i] == Winner(local[i], remote, key, newer)
    ensures r[|local|..] == RemoteOnly(remote, KeySet(local, key), key)
  {
    seq(|local|, i requires 0 <= i < |local| => Winner(local[i], remote, key, newer))
    + RemoteOnly(remote, KeySet(local, key), key)
  }

  ghost predicate DistinctKeys<T>(items: seq<T>, key: T -> string)
  {
    forall i, j :: 0 <= i < j < |items| ==> key(items[i]) != key(items[j])
  }

  /**
   * The state of the map while the remote loop runs, in terms of the
   * reference, in three parts: the keys are the local ids followed by the
   * new remote ids, each local id holds its winner so far, and each new
   * remote item sits under its id.
   */
  ghost predicate MergeInvariant<T>(m: IdMap<T>, local: seq<T>, done: seq<T>,
                                    key: T -> string, newer: (T, T) -> bool)
  {
    KeysAgree(m, local, done, key) && LocalWinners(m, local, done, key, newer) && AddedInPlace(m, local, done, key)
  }

  ghost predicate KeysAgree<T>(m: IdMap<T>, local: seq<T>, done: seq<T>, key: T -> string)
  {
    && m.keys == Keys(local, key) + Keys(RemoteOnly(done, KeySet(local, key), key), key)
    && (forall k :: k in m.entries <==> k in m.keys)
  }

  ghost predicate LocalWinners<T>(m: IdMap<T>, local: seq<T>, done: seq<T>,
                                  key: T -> string, newer: (T, T) -> bool)
  {
    forall i :: 0 <= i < |local| ==>
      key(local[i]) in m.entries && m.entries[key(local[i])] == Winner(local[i], done, key, newer)
  }

  ghost predicate AddedInPlace<T>(m: IdMap<T>, local: seq<T>, done: seq<T>, key: T -> string)
  {
    forall x :: x in RemoteOnly(done, KeySet(local, key), key) ==> key(x) in m.entries && m.entries[key(x)] == x
  }

  lemma {:induction false} SetAllInvariant<T>(local: seq<T>, key: T -> string, newer: (T, T) -> bool)
    requires DistinctKeys(local, key)
    ensures MergeInvariant(SetAll(local, key), local, [], key, newer)
    decreases |local|
  {
    if local != [] {
      var front := local[..|local| - 1];
      var last := local[|local| - 1];
      SetAllInvariant(front, key, newer);
      var m := SetAll(front, key);
      assert m.keys == Keys(front, key);
      assert key(last) !in m.entries by {
        forall i | 0 <= i < |front| ensures key(front[i]) != key(last) {
          assert front[i] == local[i];
        }
      }
      assert Keys(local, key) == Keys(front, key) + [key(last)];
      forall i | 0 <= i < |local|
        ensures SetAll(local, key).entries[key(local[i])] == Winner(local[i], [], key, newer)
      {
        if i < |local| - 1 {
          assert local[i] == front[i];
        }
      }
    }
  }

  lemma {:induction false} SetNewerInvariant<T>(local: seq<T>, remote: seq<T>,
                                               key: T -> string, newer: (T, T) -> bool)
    requires DistinctKeys(local, key) && DistinctKeys(remote, key)
    ensures MergeInvariant(SetNewer(SetAll(local, key), remote, key, newer), local, remote, key, newer)
    decreases |remote|
  {
    if remote == [] {
      SetAllInvariant(local, key, newer);
    } else {
      var front := remote[..|remote| - 1];
      assert DistinctKeys(front, key) by {
        forall i, j | 0 <= i < j < |front| ensures key(front[i]) != key(front[j]) {
          assert front[i] == remote[i] && front[j] == remote[j];
        }
      }
      assert LastIsNew(remote, key);
      SetNewerInvariant(local, front, key, newer);
      var m := SetNewer(SetAll(local, key), front, key, newer);
      if key(remote[|remote| - 1]) in KeySet(local, key) {
        TakenKeys(m, local, remote, key, newer);
        TakenLocal(m, local, remote, key, newer);
        TakenAdded(m, local, remote, key, newer);
      } else {
        AddedKeys(m, local, remote, key, newer);
        AddedLocal(m, local, remote, key, newer);
        AddedAdded(m, local, remote, key, newer);
      }
    }
  }

  /** The last remote item has an id not seen earlier on the remote side. */
  ghost predicate LastIsNew<T>(done: seq<T>, key: T -> string)
    requires |done| > 0
  {
    forall i :: 0 <= i < |done| - 1 ==> key(done[i]) != key(done[|done| - 1])
  }

  // A remote item whose id is a local id competes with that local item.

  lemma TakenKeys<T>(m: IdMap<T>, local: seq<T>, done: seq<T>, key: T -> string, newer: (T, T) -> bool)
    requires |done| > 0 && KeysAgree(m, local, done[..|done| - 1], key)
    requires key(done[|done| - 1]) in KeySet(local, key)
    ensures KeysAgree(SetOne(m, done[|done| - 1], key, newer), local, done, key)
  {
    var k := key(done[|done| - 1]);
    var i :| 0 <= i < |local| && key(local[i]) == k;
    assert m.keys[i] == k;
  }

  lemma TakenLocal<T>(m: IdMap<T>, local: seq<T>, done: seq<T>, key: T -> string, newer: (T, T) -> bool)
    requires |done| > 0 && DistinctKeys(local, key) && LastIsNew(done, key)
    requires LocalWinners(m, local, done[..|done| - 1], key, newer)
    requires key(done[|done| - 1]) in KeySet(local, key)
    ensures LocalWinners(SetOne(m, done[|done| - 1], key, newer), local, done, key, newer)
  {
    var front, x := done[..|done| - 1], done[|done| - 1];
    var k := key(x);
    assert FindByKey(front, k, key).None? by {
      forall i | 0 <= i < |front| ensures key(front[i]) != k {
        assert front[i] == done[i];
      }
    }
    var i0 :| 0 <= i0 < |local| && key(local[i0]) == k;
    assert m.entries[k] == local[i0];
    forall i | 0 <= i < |local|
      ensures SetOne(m, x, key, newer).entries[key(local[i])] == Winner(local[i], done, key, newer)
    {
      if key(local[i]) == k {
        assert i == i0;
      }
    }
  }

  lemma TakenAdded<T>(m: IdMap<T>, local: seq<T>, done: seq<T>, key: T -> string, newer: (T, T) -> bool)
    requires |done| > 0 && AddedInPlace(m, local, done[..|done| - 1], key)
    requires key(done[|done| - 1]) in KeySet(local, key)
    ensures AddedInPlace(SetOne(m, done[|done| - 1], key, newer), local, done, key)
  {
  }

  // A remote item whose id is new to both sides is appended.

  lemma AddedKeys<T>(m: IdMap<T>, local: seq<T>, done: seq<T>, key: T -> string, newer: (T, T) -> bool)
    requires |done| > 0 && LastIsNew(done, key) && KeysAgree(m, local, done[..|done| - 1], key)
    requires key(done[|done| - 1]) !in KeySet(local, key)
    ensures key(done[|done| - 1]) !in m.entries
    ensures KeysAgree(SetOne(m, done[|done| - 1], key, newer), local, done, key)
  {
    var front, x := done[..|done| - 1], done[|done| - 1];
    var k := key(x);
    var taken := KeySet(local, key);
    var before := RemoteOnly(front, taken, key);
    assert k !in Keys(local, key);
    assert k !in Keys(before, key) by {
      forall j | 0 <= j < |before| ensures key(before[j]) != k {
        var t :| 0 <= t < |front| && front[t] == before[j];
        assert front[t] == done[t];
      }
    }
    assert RemoteOnly(done, taken, key) == before + [x];
    assert Keys(before + [x], key) == Keys(before, key) + [k];
  }

  lemma AddedLocal<T>(m: IdMap<T>, local: seq<T>, done: seq<T>, key: T -> string, newer: (T, T) -> bool)
    requires |done| > 0 && LocalWinners(m, local, done[..|done| - 1], key, newer)
    requires key(done[|done| - 1]) !in KeySet(local, key)
    ensures LocalWinners(SetOne(m, done[|done| - 1], key, newer), local, done, key, newer)
  {
    var front, x := done[..|done| - 1], done[|done| - 1];
    forall i | 0 <= i < |local|
      ensures FindByKey(done, key(local[i]), key) == FindByKey(front, key(local[i]), key)
    {
      assert key(local[i]) in KeySet(local, key);
    }
  }

  lemma AddedAdded<T>(m: IdMap<T>, local: seq<T>, done: seq<T>, key: T -> string, newer: (T, T) -> bool)
    requires |done| > 0 && LastIsNew(done, key) && AddedInPlace(m, local, done[..|done| - 1], key)
    requires key(done[|done| - 1]) !in KeySet(local, key) && key(done[|done| - 1]) !in m.entries
    ensures AddedInPlace(SetOne(m, done[|done| - 1], key, newer), local, done, key)
  {
    var front, x := done[..|done| - 1], done[|done| - 1];
    var before := RemoteOnly(front, KeySet(local, key), key);
    assert RemoteOnly(done, KeySet(local, key), key) == before + [x];
    forall x' | x' in before + [x]
      ensures SetOne(m, x, key, newer).entries[key(x')] == x'
    {
      if x' != x {
        assert x' in before;
        var t :| 0 <= t < |front| && front[t] == x';
        assert front[t] == done[t];
      }
    }
  }

  /**
   * For lists whose ids are distinct on each side, the merge as written
   * computes the reference merge.
   */
  lemma MergedIsReference<T>(local: seq<T>, remote: seq<T>, key: T -> string, newer: (T, T) -> bool)
    requires DistinctKeys(local, key) && DistinctKeys(remote, key)
    ensures Merged(local, remote, key, newer) == MergeReference(local, remote, key, newer)
  {
    SetNewerInvariant(local, remote, key, newer);
    var m := SetNewer(SetAll(local, key), remote, key, newer);
    MergedIsValues(local, remote, key, newer);
    var r := Values(m);
    var reference := MergeReference(local, remote, key, newer);
    var added := RemoteOnly(remote, KeySet(local, key), key);
    assert |m.keys| == |local| + |added|;
    assert reference == reference[..|local|] + added;
    forall i | 0 <= i < |r| ensures r[i] == reference[i] {
      if i >= |local| {
        var j := i - |local|;
        assert m.keys[i] == Keys(added, key)[j] == key(added[j]);
        assert added[j] in added;
        assert reference[i] == added[j];
      } else {
        assert m.keys[i] == key(local[i]);
      }
    }
  }

  lemma MergedIsValues<T>(local: seq<T>, remote: seq<T>, key: T -> string, newer: (T, T) -> bool)
    ensures var m := SetNewer(SetAll(local, key), remote, key, newer);
      && WellFormed(m, key)
      && Merged(local, remote, key, newer) == Values(m)
  {
    SetAllWellFormed(local, key);
    SetNewerWellFormed(SetAll(local, key), remote, key, newer);
  }

  /**
   * Whatever the inputs, each id from either side appears exactly once in
   * the merge, and no other id does.
   */
  lemma MergedIdsExactlyOnce<T>(local: seq<T>, remote: seq<T>, key: T -> string,
                                newer: (T, T) -> bool)
    ensures var r := Merged(local, remote, key, newer);
      && DistinctKeys(r, key)
      && KeySet(r, key) == KeySet(local, key) + KeySet(remote, key)
  {
    SetAllWellFormed(local, key);
    SetNewerWellFormed(SetAll(local, key), remote, key, newer);
    var m := SetNewer(SetAll(local, key), remote, key, newer);
    var r := Values(m);
    assert forall i :: 0 <= i < |r| ==> key(r[i]) == m.keys[i];
    SetAllKeys(local, key);
    SetNewerKeys(SetAll(local, key), remote, key, newer);
    assert KeySet(r, key) == m.entries.Keys by {
      forall k | k in m.entries ensures k in KeySet(r, key) {
        var i :| 0 <= i < |m.keys| && m.keys[i] == k;
        assert key(r[i]) == k;
      }
    }
  }

  lemma {:induction false} SetAllKeys<T>(items: seq<T>, key: T -> string)
    ensures SetAll(items, key).entries.Keys == KeySet(items, key)
    decreases |items|
  {
    if items != [] {
      var front := items[..|items| - 1];
      SetAllKeys(front, key);
      assert KeySet(items, key) == KeySet(front, key) + {key(items[|items| - 1])} by {
        forall k | k in KeySet(items, key) ensures k in KeySet(front, key) + {key(items[|items| - 1])} {
          var i :| 0 <= i < |items| && key(items[i]) == k;
          if i < |items| - 1 { assert items[i] == front[i]; }
        }
        forall k | k in KeySet(front, key) ensures k in KeySet(items, key) {
          var i :| 0 <= i < |front| && key(front[i]) == k;
          assert items[i] == front[i];
        }
      }
    }
  }

  lemma {:induction false} SetNewerKeys<T>(m: IdMap<T>, items: seq<T>, key: T -> string,
                                          newer: (T, T) -> bool)
    ensures SetNewer(m, items, key, newer).entries.Keys == m.entries.Keys + KeySet(items, key)
    decreases |items|
  {
    if items != [] {
      var front := items[..|items| - 1];
      SetNewerKeys(m, front, key, newer);
      assert KeySet(items, key) == KeySet(front, key) + {key(items[|items| - 1])} by {
        forall k | k in KeySet(items, key) ensures k in KeySet(front, key) + {key(items[|items| - 1])} {
          var i :| 0 <= i < |items| && key(items[i]) == k;
          if i < |items| - 1 { assert items[i] == front[i]; }
        }
        forall k | k in KeySet(front, key) ensures k in KeySet(items, key) {
          var i :| 0 <= i < |front| && key(front[i]) == k;
          assert items[i] == front[i];
        }
      }
    }
  }

  // ------------------------------------------------- objects and strokes

  function ObjectId(o: CanvasObject): string { o.id }

  /** `obj.lastModified > localObj.lastModified`: strictly newer. */
  predicate ObjectNewer(a: CanvasObject, b: CanvasObject) { a.lastModified > b.lastModified }

  function StrokeId(s: Stroke): string { s.id }

  /**
   * `stroke.lastModified > localStroke.lastModified`: a stroke has no such
   * property, and `undefined > undefined` is false.
   */
  predicate StrokeNewer(a: Stroke, b: Stroke) { false }

  /**
   * The state `mergeStates` returns: the local canvas and tool buttons, the
   * new timestamp, and object and stroke lists in which every id of either
   * side appears exactly once.
   */
  function MergedState(localState: CanvasState, remoteState: CanvasState, now: string): (r: CanvasState)
    ensures r.canvas == localState.canvas && r.toolButtons == localState.toolButtons
    ensures r.lastModified == now
    ensures DistinctKeys(r.objects, ObjectId)
    ensures KeySet(r.objects, ObjectId) == KeySet(localState.objects, ObjectId) + KeySet(remoteState.objects, ObjectId)
    ensures DistinctKeys(r.strokes, StrokeId)
    ensures KeySet(r.strokes, StrokeId) == KeySet(localState.strokes, StrokeId) + KeySet(remoteState.strokes, StrokeId)
  {
    MergedIdsExactlyOnce(localState.objects, remoteState.objects, ObjectId, ObjectNewer);
    MergedIdsExactlyOnce(localState.strokes, remoteState.strokes, StrokeId, StrokeNewer);
    localState.(
      objects := Merged(localState.objects, remoteState.objects, ObjectId, ObjectNewer),
      strokes := Merged(localState.strokes, remoteState.strokes, StrokeId, StrokeNewer),
      lastModified := now)
  }

  /** `mergeStates`. */
  method MergeStates(localState: CanvasState, remoteState: CanvasState, now: string)
    returns (r: CanvasState)
    ensures r == MergedState(localState, remoteState, now)
    ensures r.canvas == localState.canvas && r.toolButtons == localState.toolButtons
    ensures r.lastModified == now
  {
    var mergedObjects := MergeById(localState.objects, remoteState.objects, ObjectId, ObjectNewer);
    var mergedStrokes := MergeById(localState.strokes, remoteState.strokes, StrokeId, StrokeNewer);
    r := localState.(objects := mergedObjects, strokes := mergedStrokes, lastModified := now);
  }

  /**
   * Objects, for distinct ids per side: a shared id keeps the local object's
   * slot and takes the remote object only when its `lastModified` is
   * strictly greater, so a tie keeps the local one; remote-only objects
   * follow in remote order.
   */
  lemma MergedObjectsLastWriterWins(localState: CanvasState, remoteState: CanvasState, now: string,
                                    i: int, o: CanvasObject)
    requires DistinctKeys(localState.objects, ObjectId) && DistinctKeys(remoteState.objects, ObjectId)
    requires 0 <= i < |localState.objects| && o in remoteState.objects
    requires o.id == localState.objects[i].id
    ensures var merged := MergedState(localState, remoteState, now).objects;
      && i < |merged|
      && (o.lastModified > localState.objects[i].lastModified ==> merged[i] == o)
      && (o.lastModified <= localState.objects[i].lastModified ==> merged[i] == localState.objects[i])
  {
    var l, rs := localState.objects, remoteState.objects;
    MergedIsReference(l, rs, ObjectId, ObjectNewer);
    var found := FindByKey(rs, l[i].id, ObjectId);
    var j :| 0 <= j < |rs| && rs[j] == o;
    assert found.Some?;
    var k :| 0 <= k < |rs| && rs[k] == found.value;
    assert k == j;
  }

  /**
   * Strokes, for distinct ids per side: no stroke counts as newer, so every
   * local stroke is kept as it is and only remote strokes with new ids are
   * appended.
   */
  lemma MergedStrokesKeepLocal(localState: CanvasState, remoteState: CanvasState, now: string)
    requires DistinctKeys(localState.strokes, StrokeId) && DistinctKeys(remoteState.strokes, StrokeId)
    ensures MergedState(localState, remoteState, now).strokes
            == localState.strokes + RemoteOnly(remoteState.strokes, KeySet(localState.strokes, StrokeId), StrokeId)
  {
    var l, rs := localState.strokes, remoteState.strokes;
    MergedIsReference(l, rs, StrokeId, StrokeNewer);
    var merged := MergedState(localState, remoteState, now).strokes;
    assert merged[..|l|] == l;
    assert merged == merged[..|l|] + merged[|l|..];
  }

  // ----------------------------------------------------------- strategies

  const UnsupportedStrategy := "지원하지 않는 충돌 해결 전략입니다."

  /**
   * `resolveConflict`: `'local'` and `'remote'` return that state untouched,
   * `'merge'` merges, and any other token is the error the source throws.
   */
  method ResolveConflict(localState: CanvasState, remoteState: CanvasState, strategy: string,
                         now: string)
    returns (r: Result<CanvasState>)
    ensures strategy == "local" ==> r == Ok(localState)
    ensures strategy == "remote" ==> r == Ok(remoteState)
    ensures strategy == "merge" ==> r == Ok(MergedState(localState, remoteState, now))
    ensures strategy != "local" && strategy != "remote" && strategy != "merge" ==>
              r == Err(UnsupportedStrategy)
  {
    if strategy == "local" {
      r := Ok(localState);
    } else if strategy == "remote" {
      r := Ok(remoteState);
    } else if strategy == "merge" {
      var merged := MergeStates(localState, remoteState, now);
      r := Ok(merged);
    } else {
      r := Err(UnsupportedStrategy);
    }
  }
}
