/** Grouping key/value pairs in a dictionary that remembers the order in which keys arrived. */
module Grouping {

  import opened Basics

  /** The values filed under a key, in order. */
  function ValuesOf<K(==), V>(pairs: seq<(K, V)>, k: K): seq<V> {
    if pairs == [] then []
    else
      var last := pairs[|pairs| - 1];
      ValuesOf(pairs[..|pairs| - 1], k) + if last.0 == k then [last.1] else []
  }

  /** The keys in order of first arrival. */
  function Keys<K(==), V>(pairs: seq<(K, V)>): seq<K> {
    if pairs == [] then []
    else
      var keys := Keys(pairs[..|pairs| - 1]);
      var last := pairs[|pairs| - 1].0;
      if last in keys then keys else keys + [last]
  }

  function Tag<K, V>(k: K, values: seq<V>): (r: seq<(K, V)>)
    ensures |r| == |values| && forall i :: 0 <= i < |r| ==> r[i] == (k, values[i])
  {
    seq(|values|, i requires 0 <= i < |values| => (k, values[i]))
  }

  /** The groups of the given keys written out as pairs again. */
  function Ungroup<K(==), V>(keys: seq<K>, pairs: seq<(K, V)>): seq<(K, V)> {
    if keys == [] then []
    else
      var last := keys[|keys| - 1];
      Ungroup(keys[..|keys| - 1], pairs) + Tag(last, ValuesOf(pairs, last))
  }

  lemma {:induction false} KeysAreDistinct<K, V>(pairs: seq<(K, V)>)
    ensures Distinct(Keys(pairs))
    ensures forall k :: k in Keys(pairs) <==> ValuesOf(pairs, k) != []
    ensures forall k :: k in Keys(pairs) <==> exists i :: 0 <= i < |pairs| && pairs[i].0 == k
  {
    if pairs != [] {
      var front := pairs[..|pairs| - 1];
      KeysAreDistinct(front);
      forall k ensures k in Keys(pairs) <==> exists i :: 0 <= i < |pairs| && pairs[i].0 == k {
        assert pairs[|pairs| - 1].0 in Keys(pairs);
        if k in Keys(front) {
          var i :| 0 <= i < |front| && front[i].0 == k;
          assert pairs[i].0 == k;
        }
        if i :| 0 <= i < |pairs| && pairs[i].0 == k {
          assert i < |front| ==> front[i].0 == k;
        }
      }
    }
  }

  lemma {:induction false} ValuesCount<K, V>(pairs: seq<(K, V)>, k: K, v: V)
    ensures multiset(ValuesOf(pairs, k))[v] == multiset(pairs)[(k, v)]
  {
    if pairs != [] {
      var front := pairs[..|pairs| - 1];
      ValuesCount(front, k, v);
      assert pairs == front + [pairs[|pairs| - 1]];
    }
  }

  lemma {:induction false} TagCount<K, V>(tag: K, values: seq<V>, k: K, v: V)
    ensures multiset(Tag(tag, values))[(k, v)] == if tag == k then multiset(values)[v] else 0
  {
    if values != [] {
      var front := values[..|values| - 1];
      TagCount(tag, front, k, v);
      assert values == front + [values[|values| - 1]];
      assert Tag(tag, values) == Tag(tag, front) + [(tag, values[|values| - 1])];
    }
  }

  lemma {:induction false} UngroupCount<K, V>(keys: seq<K>, pairs: seq<(K, V)>, k: K, v: V)
    requires Distinct(keys)
    ensures multiset(Ungroup(keys, pairs))[(k, v)] == if k in keys then multiset(ValuesOf(pairs, k))[v] else 0
  {
    if keys != [] {
      var front, last := keys[..|keys| - 1], keys[|keys| - 1];
      UngroupCount(front, pairs, k, v);
      TagCount(last, ValuesOf(pairs, last), k, v);
      assert keys == front + [last];
    }
  }

  /** Grouping neither loses, repeats nor misfiles anything. */
  lemma GroupsPartition<K, V>(pairs: seq<(K, V)>)
    ensures multiset(Ungroup(Keys(pairs), pairs)) == multiset(pairs)
  {
    var grouped, all := multiset(Ungroup(Keys(pairs), pairs)), multiset(pairs);
    forall p: (K, V) ensures grouped[p] == all[p] {
      SameCount(pairs, p.0, p.1);
      assert p == (p.0, p.1);
    }
    SameMultiset(grouped, all);
  }

  lemma SameMultiset<T>(a: multiset<T>, b: multiset<T>)
    requires forall x :: a[x] == b[x]
    ensures a == b
  {
    assert forall x :: x in a ==> a[x] == b[x];
    assert a - b == multiset{};
    assert b - a == multiset{};
  }

  lemma SameCount<K, V>(pairs: seq<(K, V)>, k: K, v: V)
    ensures multiset(Ungroup(Keys(pairs), pairs))[(k, v)] == multiset(pairs)[(k, v)]
  {
    KeysAreDistinct(pairs);
    UngroupCount(Keys(pairs), pairs, k, v);
    ValuesCount(pairs, k, v);
  }

  method Group<K(==), V>(pairs: seq<(K, V)>) returns (keys: seq<K>, groups: map<K, seq<V>>)
    ensures keys == Keys(pairs)
    ensures forall k :: k in keys <==> k in groups
    ensures forall k :: k in groups ==> groups[k] == ValuesOf(pairs, k)
  {
    keys, groups := [], map[];
    var i := 0;
    while i < |pairs|
      invariant 0 <= i <= |pairs|
      invariant keys == Keys(pairs[..i])
      invariant forall k :: k in keys <==> k in groups
      invariant forall k :: k in groups ==> groups[k] == ValuesOf(pairs[..i], k)
    {
      var (k, v) := pairs[i];
      assert pairs[..i + 1][..i] == pairs[..i] && pairs[..i + 1][i] == (k, v);
      KeysAreDistinct(pairs[..i]);
      if k !in groups {
        keys, groups := keys + [k], groups[k := []];
      }
      groups := groups[k := groups[k] + [v]];
      i := i + 1;
    }
    assert pairs[..i] == pairs;
  }
}
