/**
 * Guava's ArrayListMultimap as the write transforms use it: values are kept
 * per key in insertion order. Its keys are listed here in order of first
 * appearance; the source iterates a hash-ordered key set, so any order of
 * the groups is admissible there and this model fixes one.
 */
module Multimaps {

  /** The distinct keys of the pairs, in order of first appearance. */
  function KeysOf<K(==), V>(kvs: seq<(K, V)>): (ks: seq<K>)
    ensures |ks| <= |kvs|
    decreases |kvs|
  {
    if kvs == [] then []
    else
      var ks := KeysOf(kvs[..|kvs| - 1]);
      if kvs[|kvs| - 1].0 in ks then ks else ks + [kvs[|kvs| - 1].0]
  }

  /** The values put under `k`, in the order they were put. */
  function ValuesOf<K(==), V>(kvs: seq<(K, V)>, k: K): (vs: seq<V>)
    ensures |vs| <= |kvs|
    decreases |kvs|
  {
    if kvs == [] then []
    else ValuesOf(kvs[..|kvs| - 1], k) + (if kvs[|kvs| - 1].0 == k then [kvs[|kvs| - 1].1] else [])
  }

  ghost predicate Distinct<T>(s: seq<T>) {
    forall i, j :: 0 <= i < j < |s| ==> s[i] != s[j]
  }

  /** Putting one more pair: the key list grows by the key only when it is new. */
  lemma KeysOfSnoc<K, V>(kvs: seq<(K, V)>, k: K, v: V)
    ensures KeysOf(kvs + [(k, v)]) == if k in KeysOf(kvs) then KeysOf(kvs) else KeysOf(kvs) + [k]
  {
    assert (kvs + [(k, v)])[..|kvs|] == kvs;
  }

  /** Putting one more pair extends only the values of its own key. */
  lemma ValuesOfSnoc<K, V>(kvs: seq<(K, V)>, k: K, v: V, key: K)
    ensures ValuesOf(kvs + [(k, v)], key) == ValuesOf(kvs, key) + (if k == key then [v] else [])
  {
    assert (kvs + [(k, v)])[..|kvs|] == kvs;
  }

  /** A key is listed exactly when some pair carries it. */
  lemma {:induction false} KeysOfMembership<K, V>(kvs: seq<(K, V)>, k: K)
    ensures k in KeysOf(kvs) <==> exists i :: 0 <= i < |kvs| && kvs[i].0 == k
    decreases |kvs|
  {
    if kvs != [] {
      var init := kvs[..|kvs| - 1];
      KeysOfMembership(init, k);
      if k in KeysOf(init) {
        var i :| 0 <= i < |init| && init[i].0 == k;
        assert kvs[i].0 == k;
      }
      if exists i :: 0 <= i < |kvs| && kvs[i].0 == k {
        var i :| 0 <= i < |kvs| && kvs[i].0 == k;
        if i < |init| {
          assert init[i].0 == k;
        }
      }
    }
  }

  /** No key is listed twice. */
  lemma {:induction false} KeysOfDistinct<K, V>(kvs: seq<(K, V)>)
    ensures Distinct(KeysOf(kvs))
    decreases |kvs|
  {
    if kvs != [] {
      KeysOfDistinct(kvs[..|kvs| - 1]);
    }
  }

  /** A value is grouped under a key exactly when the pair of the two was put. */
  lemma {:induction false} ValuesOfMembership<K, V>(kvs: seq<(K, V)>, k: K, v: V)
    ensures v in ValuesOf(kvs, k) <==> (k, v) in kvs
    decreases |kvs|
  {
    if kvs != [] {
      var init := kvs[..|kvs| - 1];
      ValuesOfMembership(init, k, v);
      assert kvs == init + [kvs[|kvs| - 1]];
    }
  }

  /** A key is listed exactly when its group is not empty. */
  lemma {:induction false} KeysOfNonEmpty<K, V>(kvs: seq<(K, V)>, k: K)
    ensures k in KeysOf(kvs) <==> ValuesOf(kvs, k) != []
    decreases |kvs|
  {
    if kvs != [] {
      KeysOfNonEmpty(kvs[..|kvs| - 1], k);
    }
  }

  /** There are no keys exactly when nothing was put. */
  lemma KeysOfEmpty<K, V>(kvs: seq<(K, V)>)
    ensures KeysOf(kvs) == [] <==> kvs == []
  {
    if kvs != [] {
      ValuesOfMembership(kvs, kvs[0].0, kvs[0].1);
      KeysOfNonEmpty(kvs, kvs[0].0);
    }
  }

  /** The groups together hold every value once: their sizes add up to the number of pairs. */
  lemma {:induction false} GroupSizesAddUp<K, V>(kvs: seq<(K, V)>)
    ensures GroupSizes(kvs, KeysOf(kvs)) == |kvs|
    decreases |kvs|
  {
    if kvs != [] {
      var init := kvs[..|kvs| - 1];
      var (k, v) := kvs[|kvs| - 1];
      assert kvs == init + [(k, v)];
      GroupSizesAddUp(init);
      KeysOfSnoc(init, k, v);
      GroupSizesSnoc(init, k, v, KeysOf(init));
      KeysOfDistinct(init);
      CountDistinct(KeysOf(init), k);
      if k !in KeysOf(init) {
        KeysOfNonEmpty(init, k);
        GroupSizesAppendKey(kvs, KeysOf(init), k);
      }
    }
  }

  /** The total size of the groups of the given keys. */
  function GroupSizes<K(==), V>(kvs: seq<(K, V)>, ks: seq<K>): nat
    decreases |ks|
  {
    if ks == [] then 0 else |ValuesOf(kvs, ks[0])| + GroupSizes(kvs, ks[1..])
  }

  lemma {:induction false} GroupSizesSnoc<K, V>(kvs: seq<(K, V)>, k: K, v: V, ks: seq<K>)
    ensures GroupSizes(kvs + [(k, v)], ks) == GroupSizes(kvs, ks) + Count(ks, k)
    decreases |ks|
  {
    if ks != [] {
      ValuesOfSnoc(kvs, k, v, ks[0]);
      GroupSizesSnoc(kvs, k, v, ks[1..]);
    }
  }

  lemma {:induction false} GroupSizesAppendKey<K, V>(kvs: seq<(K, V)>, ks: seq<K>, k: K)
    ensures GroupSizes(kvs, ks + [k]) == GroupSizes(kvs, ks) + |ValuesOf(kvs, k)|
    decreases |ks|
  {
    if ks == [] {
      assert ks + [k] == [k];
    } else {
      assert (ks + [k])[1..] == ks[1..] + [k];
      GroupSizesAppendKey(kvs, ks[1..], k);
    }
  }

  /** How often `k` occurs in `ks`. */
  function Count<K(==)>(ks: seq<K>, k: K): nat
    decreases |ks|
  {
    if ks == [] then 0 else (if ks[0] == k then 1 else 0) + Count(ks[1..], k)
  }

  /** In a list without repetitions an element occurs once or not at all. */
  lemma {:induction false} CountDistinct<K>(ks: seq<K>, k: K)
    requires Distinct(ks)
    ensures Count(ks, k) == if k in ks then 1 else 0
    decreases |ks|
  {
    if ks != [] {
      CountDistinct(ks[1..], k);
      if ks[0] == k {
        assert k !in ks[1..] by {
          forall j | 0 <= j < |ks[1..]|
            ensures ks[1..][j] != k
          {
            assert ks[1..][j] == ks[j + 1];
          }
        }
      }
    }
  }

  /** A multimap filled by `put` calls, remembering the calls as a ghost log. */
  class ListMultimap<K(==,!new), V> {
    /** The keys, in order of first appearance. */
    var keys: seq<K>
    var values: map<K, seq<V>>
    /** Every `put` so far, in order. */
    ghost var puts: seq<(K, V)>

    ghost predicate Valid()
      reads this
    {
      && keys == KeysOf(puts)
      && (forall k :: k in values <==> k in keys)
      && (forall k :: k in values ==> values[k] == ValuesOf(puts, k))
    }

    constructor ()
      ensures Valid() && puts == [] && keys == []
    {
      keys := [];
      values := map[];
      puts := [];
    }

    /** ArrayListMultimap.put: appends `v` to the values of `k`. */
    method Put(k: K, v: V)
      requires Valid()
      modifies this
      ensures Valid() && puts == old(puts) + [(k, v)]
    {
      KeysOfSnoc(puts, k, v);
      ghost var before := puts;
      if k in values {
        values := values[k := values[k] + [v]];
      } else {
        KeysOfNonEmpty(puts, k);
        keys := keys + [k];
        values := values[k := [v]];
      }
      puts := puts + [(k, v)];
      forall key | key in values
        ensures values[key] == ValuesOf(puts, key)
      {
        ValuesOfSnoc(before, k, v, key);
      }
    }

    /** ArrayListMultimap.get: the values put under `k`, empty for an absent key. */
    function Get(k: K): (vs: seq<V>)
      requires Valid()
      reads this
      ensures vs == ValuesOf(puts, k)
    {
      if k in values then values[k] else
        KeysOfNonEmpty(puts, k);
        []
    }
  }

  /** A new multimap holding the given pairs, put in order. */
  method PutAll<K(==,!new), V>(kvs: seq<(K, V)>) returns (m: ListMultimap<K, V>)
    ensures fresh(m) && m.Valid() && m.puts == kvs
  {
    m := new ListMultimap<K, V>();
    for i := 0 to |kvs|
      invariant fresh(m) && m.Valid() && m.puts == kvs[..i]
    {
      assert kvs[..i + 1] == kvs[..i] + [kvs[i]];
      m.Put(kvs[i].0, kvs[i].1);
    }
    assert kvs[..|kvs|] == kvs;
  }
}
