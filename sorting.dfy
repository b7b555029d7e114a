/** A stable sort by a comparator: the result Python's `list.sort(key=...)`
    (with or without `reverse=True`) and `sorted(...)` leave, and the order the
    model gives to SQL `ORDER BY`. `le(a, b)` means "a may come before b". */
module Sorting {
  import opened Sequences

  /** Every pair is comparable and the order is transitive. */
  ghost predicate TotalPreorder<T(!new)>(le: (T, T) -> bool) {
    (forall a, b :: le(a, b) || le(b, a)) &&
    (forall a, b, c :: le(a, b) && le(b, c) ==> le(a, c))
  }

  predicate SortedBy<T>(s: seq<T>, le: (T, T) -> bool) {
    forall i, j :: 0 <= i < j < |s| ==> le(s[i], s[j])
  }

  /** Put x in front of the first element it may precede, so that x stays
      ahead of every element it ties with. */
  function Insert<T>(x: T, s: seq<T>, le: (T, T) -> bool): (r: seq<T>)
    ensures multiset(r) == multiset{x} + multiset(s)
    decreases |s|
  {
    if s == [] || le(x, s[0]) then [x] + s
    else
      assert s == [s[0]] + s[1..];
      [s[0]] + Insert(x, s[1..], le)
  }

  /** Insertion sort from the back: the head is inserted into the sorted tail. */
  function SortBy<T>(s: seq<T>, le: (T, T) -> bool): (r: seq<T>)
    ensures multiset(r) == multiset(s)
    decreases |s|
  {
    if s == [] then []
    else
      assert s == [s[0]] + s[1..];
      Insert(s[0], SortBy(s[1..], le), le)
  }

  lemma SortByLength<T>(s: seq<T>, le: (T, T) -> bool)
    ensures |SortBy(s, le)| == |s|
  {
    assert |multiset(SortBy(s, le))| == |multiset(s)|;
  }

  lemma {:induction false} InsertSorted<T(!new)>(x: T, s: seq<T>, le: (T, T) -> bool)
    requires TotalPreorder(le)
    requires SortedBy(s, le)
    ensures SortedBy(Insert(x, s, le), le)
    decreases |s|
  {
    if s == [] || le(x, s[0]) {
    } else {
      var tail := Insert(x, s[1..], le);
      InsertSorted(x, s[1..], le);
      forall j | 0 <= j < |tail|
        ensures le(s[0], tail[j])
      {
        assert tail[j] in multiset(tail);
        if tail[j] != x {
          assert tail[j] in multiset(s[1..]);
          var k :| 0 <= k < |s[1..]| && s[1..][k] == tail[j];
          assert s[k + 1] == tail[j];
        }
      }
    }
  }

  /** The sort yields an ordered sequence. */
  lemma {:induction false} SortBySorted<T(!new)>(s: seq<T>, le: (T, T) -> bool)
    requires TotalPreorder(le)
    ensures SortedBy(SortBy(s, le), le)
    decreases |s|
  {
    if s != [] {
      SortBySorted(s[1..], le);
      InsertSorted(s[0], SortBy(s[1..], le), le);
    }
  }

  /** p picks out elements that all tie with one another. */
  ghost predicate TiedClass<T(!new)>(p: T -> bool, le: (T, T) -> bool) {
    forall a, b :: p(a) && p(b) ==> le(a, b)
  }

  lemma {:induction false} InsertStable<T(!new)>(x: T, s: seq<T>, le: (T, T) -> bool, p: T -> bool)
    requires TiedClass(p, le)
    ensures Filter(Insert(x, s, le), p) == Filter([x] + s, p)
    decreases |s|
  {
    if s == [] || le(x, s[0]) {
    } else {
      InsertStable(x, s[1..], le, p);
      assert ([x] + s)[1..] == s;
      assert ([s[0]] + Insert(x, s[1..], le))[1..] == Insert(x, s[1..], le);
      assert ([x] + s[1..])[1..] == s[1..];
      assert s == [s[0]] + s[1..];
      assert !(p(x) && p(s[0]));
    }
  }

  /** Stability: the elements of any class of ties come out in their original order. */
  lemma {:induction false} SortByStable<T(!new)>(s: seq<T>, le: (T, T) -> bool, p: T -> bool)
    requires TiedClass(p, le)
    ensures Filter(SortBy(s, le), p) == Filter(s, p)
    decreases |s|
  {
    if s != [] {
      SortByStable(s[1..], le, p);
      InsertStable(s[0], SortBy(s[1..], le), le, p);
      assert ([s[0]] + SortBy(s[1..], le))[1..] == SortBy(s[1..], le);
    }
  }

  lemma {:induction false} InsertSum<T>(x: T, s: seq<T>, le: (T, T) -> bool, f: T -> int)
    ensures Sum(Insert(x, s, le), f) == f(x) + Sum(s, f)
    decreases |s|
  {
    if s == [] || le(x, s[0]) {
      SumFront([x] + s, f);
      assert ([x] + s)[1..] == s;
    } else {
      var r := Insert(x, s, le);
      InsertSum(x, s[1..], le, f);
      SumFront(r, f);
      assert r[1..] == Insert(x, s[1..], le);
      SumFront(s, f);
    }
  }

  /** Sorting does not change a sum over the elements. */
  lemma {:induction false} SortBySum<T>(s: seq<T>, le: (T, T) -> bool, f: T -> int)
    ensures Sum(SortBy(s, le), f) == Sum(s, f)
    decreases |s|
  {
    if s != [] {
      SortBySum(s[1..], le, f);
      InsertSum(s[0], SortBy(s[1..], le), le, f);
      SumFront(s, f);
    }
  }

  /** A contiguous run of an ordered sequence is ordered. */
  lemma SortedSlice<T>(s: seq<T>, le: (T, T) -> bool, i: nat, j: nat)
    requires SortedBy(s, le) && i <= j <= |s|
    ensures SortedBy(s[i..j], le)
  {
    forall a, b | 0 <= a < b < j - i
      ensures le(s[i..j][a], s[i..j][b])
    {
      assert s[i..j][a] == s[i + a] && s[i..j][b] == s[i + b];
    }
  }

  /** One page of a sorted result: at most `limit` elements, the run of the
      sorted sequence that begins at `offset`, itself in order. */
  lemma SortedPage<T(!new)>(s: seq<T>, le: (T, T) -> bool, offset: nat, limit: nat)
    requires TotalPreorder(le)
    ensures var all := SortBy(s, le);
            var r := Window(all, offset, limit);
            && |all| == |s|
            && (offset + limit <= |s| ==> |r| == limit)
            && (offset >= |s| ==> r == [])
            && (offset < |s| ==> r == all[offset..offset + |r|])
            && SortedBy(r, le)
            && forall x <- r :: x in s
  {
    var all := SortBy(s, le);
    SortByLength(s, le);
    SortBySorted(s, le);
    WindowSlice(all, offset, limit);
    var r := Window(all, offset, limit);
    if offset < |all| {
      SortedSlice(all, le, offset, offset + |r|);
    }
    forall x <- r
      ensures x in s
    {
      SortByMembers(s, le, x);
    }
  }

  /** Every element of the sorted sequence comes from the input, and back. */
  lemma SortByMembers<T>(s: seq<T>, le: (T, T) -> bool, x: T)
    ensures x in SortBy(s, le) <==> x in s
  {
    assert x in multiset(SortBy(s, le)) <==> x in multiset(s);
  }

  /** Ascending order on integers. */
  predicate IntLe(a: int, b: int) { a <= b }

  lemma IntLePreorder()
    ensures TotalPreorder(IntLe)
  {
  }

  /** Sorted distinct integers are strictly increasing. */
  lemma SortedDistinctIncreasing(s: seq<int>)
    requires SortedBy(s, IntLe)
    requires forall i, j :: 0 <= i < j < |s| ==> s[i] != s[j]
    ensures forall i, j :: 0 <= i < j < |s| ==> s[i] < s[j]
  {
    forall i, j | 0 <= i < j < |s|
      ensures s[i] < s[j]
    {
      assert IntLe(s[i], s[j]);
    }
  }

  lemma {:induction false} InsertDistinct<T>(x: T, s: seq<T>, le: (T, T) -> bool)
    requires Distinct(s) && x !in s
    ensures Distinct(Insert(x, s, le))
    decreases |s|
  {
    if s != [] && !le(x, s[0]) {
      InsertDistinct(x, s[1..], le);
      var r := Insert(x, s[1..], le);
      assert s[0] !in multiset(r) by {
        assert multiset(r) == multiset{x} + multiset(s[1..]);
        assert s == [s[0]] + s[1..];
      }
    }
  }

  /** Sorting keeps the elements distinct. */
  lemma {:induction false} SortByDistinct<T>(s: seq<T>, le: (T, T) -> bool)
    requires Distinct(s)
    ensures Distinct(SortBy(s, le))
    decreases |s|
  {
    if s != [] {
      SortByDistinct(s[1..], le);
      assert s == [s[0]] + s[1..];
      assert s[0] !in multiset(SortBy(s[1..], le));
      InsertDistinct(s[0], SortBy(s[1..], le), le);
    }
  }
}
