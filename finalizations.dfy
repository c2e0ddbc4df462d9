/**
 * The operator's pendingFinalizations: a LinkedHashMap from checkpoint id to
 * the bundle-finalization callbacks taken at that checkpoint, kept in
 * insertion order and capped at 32 entries by evicting the oldest.
 */
module Finalizations {
  import opened Timestamps

  /** An InMemoryBundleFinalizer.Finalization: an expiry time and a callback, identified by number. */
  datatype Finalization = Finalization(expiryTime: Long, callback: nat)

  datatype Option<T> = None | Some(value: T)

  /** MAX_NUMBER_PENDING_BUNDLE_FINALIZATIONS. */
  const MAX_PENDING: nat := 32

  /** An insertion-ordered map: `order` lists the keys oldest first. */
  datatype Ring = Ring(order: seq<Long>, entries: map<Long, seq<Finalization>>)

  ghost predicate Distinct(s: seq<Long>) {
    forall i, j :: 0 <= i < j < |s| ==> s[i] != s[j]
  }

  ghost predicate RingValid(r: Ring) {
    && Distinct(r.order)
    && (forall id :: id in r.entries <==> id in r.order)
  }

  const EmptyRing: Ring := Ring([], map[])

  /** The map after removing its `k` oldest keys through its key iterator. */
  function DropOldest(r: Ring, k: nat): (d: Ring)
    requires k <= |r.order|
    ensures d.order == r.order[k..]
  {
    Ring(r.order[k..], r.entries - (set i | 0 <= i < k :: r.order[i]))
  }

  /** One step of the key iterator's `remove`: the eldest key goes. */
  lemma DropOldestStep(r: Ring, k: nat)
    requires k < |r.order|
    ensures DropOldest(DropOldest(r, k), 1) == DropOldest(r, k + 1)
  {
    var d := DropOldest(r, k);
    assert d.order[0] == r.order[k];
    assert (set i | 0 <= i < 1 :: d.order[i]) == {r.order[k]};
    assert (set i | 0 <= i < k + 1 :: r.order[i]) == (set i | 0 <= i < k :: r.order[i]) + {r.order[k]};
  }

  /** The eviction before a snapshot stores its entry: from 32 entries on, all but the newest 31 go. */
  function Evict(r: Ring): (e: Ring)
    ensures |e.order| <= MAX_PENDING - 1 || e == r
  {
    if |r.order| >= MAX_PENDING then DropOldest(r, |r.order| - (MAX_PENDING - 1)) else r
  }

  /** LinkedHashMap.put: a new key goes last, an existing key keeps its position. */
  function Put(r: Ring, id: Long, fs: seq<Finalization>): (p: Ring)
    ensures id in p.entries && p.entries[id] == fs
  {
    if id in r.entries then Ring(r.order, r.entries[id := fs]) else Ring(r.order + [id], r.entries[id := fs])
  }

  /** What snapshotState does to the map for checkpoint `id` and the finalizations `fs` just taken. */
  function Snapshot(r: Ring, id: Long, fs: seq<Finalization>): Ring {
    Put(Evict(r), id, fs)
  }

  function RemoveKey(s: seq<Long>, id: Long): (t: seq<Long>)
    ensures forall x :: x in t <==> x in s && x != id
    ensures |t| <= |s|
  {
    if s == [] then []
    else if s[0] == id then RemoveKey(s[1..], id)
    else [s[0]] + RemoveKey(s[1..], id)
  }

  /** LinkedHashMap.remove: the entry and the callbacks stored under `id`, if any. */
  function Take(r: Ring, id: Long): (Ring, Option<seq<Finalization>>) {
    if id in r.entries then (Ring(RemoveKey(r.order, id), r.entries - {id}), Some(r.entries[id]))
    else (r, None)
  }

  // ---- properties ----

  lemma {:induction false} RemoveKeyDistinct(s: seq<Long>, id: Long)
    requires Distinct(s)
    ensures Distinct(RemoveKey(s, id))
  {
    if s != [] {
      RemoveKeyDistinct(s[1..], id);
      if s[0] != id {
        var t := RemoveKey(s[1..], id);
        assert s[0] !in s[1..];
        assert forall j :: 0 <= j < |t| ==> t[j] in t;
      }
    }
  }

  lemma DropOldestValid(r: Ring, k: nat)
    requires RingValid(r) && k <= |r.order|
    ensures RingValid(DropOldest(r, k))
    ensures forall id :: id in r.entries && id in DropOldest(r, k).entries ==>
      DropOldest(r, k).entries[id] == r.entries[id]
  {
    var d := DropOldest(r, k);
    forall id
      ensures id in d.entries <==> id in d.order
    {
      if id in d.order {
        var j :| 0 <= j < |d.order| && d.order[j] == id;
        assert r.order[k + j] == id;
        assert forall i :: 0 <= i < k ==> r.order[i] != id;
      }
      if id in d.entries {
        assert id in r.order;
        var j :| 0 <= j < |r.order| && r.order[j] == id;
        assert j >= k;
        assert d.order[j - k] == id;
      }
    }
  }

  /** Eviction keeps the map well formed and the surviving entries unchanged. */
  lemma EvictValid(r: Ring)
    requires RingValid(r)
    ensures RingValid(Evict(r))
    ensures forall id :: id in Evict(r).entries ==> id in r.entries && Evict(r).entries[id] == r.entries[id]
  {
    if |r.order| >= MAX_PENDING {
      DropOldestValid(r, |r.order| - (MAX_PENDING - 1));
    }
  }

  /** A key that is not yet present can be appended to an ordering of distinct keys. */
  lemma AppendFreshDistinct(s: seq<Long>, x: Long)
    requires Distinct(s) && x !in s
    ensures Distinct(s + [x])
  {
    var o := s + [x];
    forall i, j | 0 <= i < j < |o|
      ensures o[i] != o[j]
    {
      if j == |o| - 1 {
        assert o[i] in s;
      }
    }
  }

  /** put keeps the map well formed. */
  lemma PutValid(r: Ring, id: Long, fs: seq<Finalization>)
    requires RingValid(r)
    ensures RingValid(Put(r, id, fs))
  {
    if id !in r.entries {
      AppendFreshDistinct(r.order, id);
    }
  }

  /** After a snapshot the map is still an insertion-ordered map of at most 32 entries, holding `fs` under `id`. */
  lemma SnapshotBounded(r: Ring, id: Long, fs: seq<Finalization>)
    requires RingValid(r)
    ensures var s := Snapshot(r, id, fs);
      RingValid(s) && |s.order| <= MAX_PENDING && id in s.entries && s.entries[id] == fs
  {
    EvictValid(r);
    PutValid(Evict(r), id, fs);
  }

  /** From 32 entries on, a snapshot evicts exactly the oldest ids, keeping the newest 31 in order. */
  lemma SnapshotEvictsOldest(r: Ring, id: Long, fs: seq<Finalization>)
    requires RingValid(r) && |r.order| >= MAX_PENDING
    ensures var kept := r.order[|r.order| - (MAX_PENDING - 1)..];
      var s := Snapshot(r, id, fs);
      && s.order == (if id in kept then kept else kept + [id])
      && (forall k :: k in kept && k != id ==> k in r.entries && k in s.entries && s.entries[k] == r.entries[k])
  {
    var e := Evict(r);
    EvictValid(r);
    assert id in e.entries <==> id in e.order;
    forall k | k in e.order && k != id
      ensures k in r.entries && k in Snapshot(r, id, fs).entries && Snapshot(r, id, fs).entries[k] == r.entries[k]
    {
      assert k in e.entries;
    }
  }

  /** Below 32 entries, a snapshot evicts nothing and only stores or replaces the entry under `id`. */
  lemma SnapshotKeepsAll(r: Ring, id: Long, fs: seq<Finalization>)
    requires RingValid(r) && |r.order| < MAX_PENDING
    ensures var s := Snapshot(r, id, fs);
      && s.order == (if id in r.order then r.order else r.order + [id])
      && (forall k :: k in r.entries && k != id ==> k in s.entries && s.entries[k] == r.entries[k])
  {
  }

  /** Completing a checkpoint right after its snapshot yields exactly the finalizations stored at that snapshot. */
  lemma CompleteAfterSnapshot(r: Ring, id: Long, fs: seq<Finalization>)
    requires RingValid(r)
    ensures Take(Snapshot(r, id, fs), id).1 == Some(fs)
    ensures id !in Take(Snapshot(r, id, fs), id).0.entries
  {
  }

  /** Completing an unknown checkpoint changes nothing and runs no callback. */
  lemma CompleteUnknownIsNoop(r: Ring, id: Long)
    requires id !in r.entries
    ensures Take(r, id) == (r, None)
  {
  }

  /** Completing a checkpoint removes only its own entry and keeps the map well formed. */
  lemma TakeRemovesOnlyId(r: Ring, id: Long)
    requires RingValid(r)
    ensures var (t, found) := Take(r, id);
      && RingValid(t)
      && id !in t.entries
      && (found.Some? <==> id in r.entries)
      && (forall k :: k in r.entries && k != id ==> k in t.entries && t.entries[k] == r.entries[k])
  {
    RemoveKeyDistinct(r.order, id);
  }
}
