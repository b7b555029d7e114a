/** Grouping by a key: the in-memory counterpart of SQL `GROUP BY` with `SUM`
    and `COUNT`, and of the Python loops that fill a dict keyed by category,
    month or bucket. */
module Grouping {
  import opened Sequences

  /** The distinct keys of s in order of first appearance: the key order of a
      Python dict filled while scanning s front to back. */
  function Keys<T, K(==,!new)>(s: seq<T>, key: T -> K): (r: seq<K>)
    ensures forall i, j :: 0 <= i < j < |r| ==> r[i] != r[j]
    ensures forall k :: k in r <==> exists i :: 0 <= i < |s| && key(s[i]) == k
    decreases |s|
  {
    if s == [] then []
    else
      var r := Keys(s[..|s| - 1], key);
      assert forall i :: 0 <= i < |s| - 1 ==> s[..|s| - 1][i] == s[i];
      if key(s[|s| - 1]) in r then r else r + [key(s[|s| - 1])]
  }

  /** Sum of f over the elements whose key is k. */
  function SumWhere<T, K(==)>(s: seq<T>, key: T -> K, k: K, f: T -> int): int
    decreases |s|
  {
    if s == [] then 0
    else SumWhere(s[..|s| - 1], key, k, f) + (if key(s[|s| - 1]) == k then f(s[|s| - 1]) else 0)
  }

  /** Number of elements whose key is k. */
  function CountWhere<T, K(==)>(s: seq<T>, key: T -> K, k: K): int {
    SumWhere(s, key, k, One)
  }

  /** A key that never occurs collects nothing. */
  lemma {:induction false} SumWhereAbsent<T, K(!new)>(s: seq<T>, key: T -> K, k: K, f: T -> int)
    requires k !in Keys(s, key)
    ensures SumWhere(s, key, k, f) == 0
    decreases |s|
  {
    if s != [] {
      SumWhereAbsent(s[..|s| - 1], key, k, f);
    }
  }

  /** Each key collects exactly the elements carrying it: summing a group
      equals summing the elements the key selects. */
  lemma {:induction false} SumWhereIsFilteredSum<T, K(!new)>(s: seq<T>, key: T -> K, k: K, f: T -> int)
    ensures SumWhere(s, key, k, f) == Sum(Filter(s, (x: T) => key(x) == k), f)
    decreases |s|
  {
    var sel := (x: T) => key(x) == k;
    if s != [] {
      var p := s[..|s| - 1];
      var last := s[|s| - 1];
      SumWhereIsFilteredSum(p, key, k, f);
      assert s == p + [last];
      FilterAppend(p, [last], sel);
      var one := Filter([last], sel);
      assert [last][1..] == [];
      assert one == if key(last) == k then [last] else [];
      SumAppend(Filter(p, sel), one, f);
      assert Sum(one, f) == if key(last) == k then f(last) else 0 by {
        if key(last) == k {
          assert one[..0] == [];
        }
      }
    }
  }

  /** Counts are non-negative, and positive exactly for the keys that occur. */
  lemma {:induction false} CountWherePositive<T, K(!new)>(s: seq<T>, key: T -> K, k: K)
    ensures CountWhere(s, key, k) >= 0
    ensures CountWhere(s, key, k) >= 1 <==> k in Keys(s, key)
    decreases |s|
  {
    if s == [] {
    } else {
      var p := s[..|s| - 1];
      CountWherePositive(p, key, k);
      if k in Keys(p, key) {
        var i :| 0 <= i < |p| && key(p[i]) == k;
        assert key(s[i]) == k;
      }
    }
  }

  /** Sum of the group totals of the keys ks. */
  function SumOverKeys<T, K(==)>(ks: seq<K>, s: seq<T>, key: T -> K, f: T -> int): int
    decreases |ks|
  {
    if ks == [] then 0
    else SumOverKeys(ks[..|ks| - 1], s, key, f) + SumWhere(s, key, ks[|ks| - 1], f)
  }

  /** Appending one element adds its value to the group of its key, if that
      key is among the (distinct) keys ks, and to no other group. */
  lemma {:induction false} SumOverKeysExtend<T, K(!new)>(ks: seq<K>, s: seq<T>, x: T, key: T -> K, f: T -> int)
    requires forall i, j :: 0 <= i < j < |ks| ==> ks[i] != ks[j]
    ensures SumOverKeys(ks, s + [x], key, f)
            == SumOverKeys(ks, s, key, f) + (if key(x) in ks then f(x) else 0)
    decreases |ks|
  {
    assert (s + [x])[..|s + [x]| - 1] == s;
    if ks != [] {
      var init := ks[..|ks| - 1];
      SumOverKeysExtend(init, s, x, key, f);
      assert key(x) in ks <==> key(x) in init || key(x) == ks[|ks| - 1];
      if key(x) == ks[|ks| - 1] {
        assert key(x) !in init;
      }
    }
  }

  /** The groups partition the input: the group totals add up to the grand total. */
  lemma {:induction false} GroupsPartition<T, K(!new)>(s: seq<T>, key: T -> K, f: T -> int)
    ensures SumOverKeys(Keys(s, key), s, key, f) == Sum(s, f)
    decreases |s|
  {
    if s != [] {
      var p := s[..|s| - 1];
      var x := s[|s| - 1];
      assert s == p + [x];
      GroupsPartition(p, key, f);
      SumOverKeysExtend(Keys(p, key), p, x, key, f);
      if key(x) !in Keys(p, key) {
        var ks := Keys(p, key) + [key(x)];
        assert ks[..|ks| - 1] == Keys(p, key);
        SumWhereAbsent(p, key, key(x), f);
      }
    }
  }

  /** The group counts add up to the number of elements. */
  lemma CountsPartition<T, K(!new)>(s: seq<T>, key: T -> K)
    ensures SumOverKeys(Keys(s, key), s, key, One) == |s|
  {
    GroupsPartition(s, key, One);
    SumOneIsLength(s);
  }

  /** The total of the group of each key, as a function of the key. */
  function GroupTotal<T, K(==)>(s: seq<T>, key: T -> K, f: T -> int): K -> int {
    (k: K) => SumWhere(s, key, k, f)
  }

  /** Summing group totals over keys is a plain sum of GroupTotal over them,
      so it does not depend on the order of the keys. */
  lemma {:induction false} SumOverKeysIsSum<T, K>(ks: seq<K>, s: seq<T>, key: T -> K, f: T -> int)
    ensures SumOverKeys(ks, s, key, f) == Sum(ks, GroupTotal(s, key, f))
    decreases |ks|
  {
    if ks != [] {
      SumOverKeysIsSum(ks[..|ks| - 1], s, key, f);
    }
  }

  /** Scanning one more element: its key joins the keys when new, and only
      its own group grows. */
  lemma GroupStep<T, K(!new)>(p: seq<T>, x: T, key: T -> K, f: T -> int, k: K)
    ensures Keys(p + [x], key) == if key(x) in Keys(p, key) then Keys(p, key) else Keys(p, key) + [key(x)]
    ensures SumWhere(p + [x], key, k, f) == SumWhere(p, key, k, f) + (if key(x) == k then f(x) else 0)
  {
    assert (p + [x])[..|p + [x]| - 1] == p;
  }
}
