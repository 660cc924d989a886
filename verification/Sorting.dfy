/** Sorting in place, promising no more than Go's sort package does: equal elements may end up in any order. */
module Sorting {
  ghost predicate TotalOrder<T(!new)>(le: (T, T) -> bool) {
    && (forall x, y :: le(x, y) || le(y, x))
    && (forall x, y, z :: le(x, y) && le(y, z) ==> le(x, z))
  }

  ghost predicate Sorted<T>(s: seq<T>, le: (T, T) -> bool) {
    forall i, j :: 0 <= i < j < |s| ==> le(s[i], s[j])
  }

  /** An arrangement of `s` that a sort may produce. */
  ghost predicate SortOf<T>(r: seq<T>, s: seq<T>, le: (T, T) -> bool) {
    Sorted(r, le) && multiset(r) == multiset(s)
  }

  method Sort<T(==, !new)>(a: array<T>, le: (T, T) -> bool)
    requires TotalOrder(le)
    modifies a
    ensures SortOf(a[..], old(a[..]), le)
  {
    for i := 0 to a.Length
      invariant Sorted(a[..i], le)
      invariant multiset(a[..]) == multiset(old(a[..]))
    {
      Insert(a, i, le);
    }
    assert a[..a.Length] == a[..];
  }

  /** The first i + 1 elements are sorted but for the one at j, which may be too small for its place. */
  ghost predicate SortedBut<T>(s: seq<T>, i: nat, j: nat, le: (T, T) -> bool) {
    j <= i < |s| && forall p, q :: 0 <= p < q <= i && q != j ==> le(s[p], s[q])
  }

  /** Moves a[i] down to its place among the sorted elements before it. */
  method Insert<T(==, !new)>(a: array<T>, i: nat, le: (T, T) -> bool)
    requires TotalOrder(le) && i < a.Length && Sorted(a[..i], le)
    modifies a
    ensures Sorted(a[..i + 1], le) && multiset(a[..]) == multiset(old(a[..]))
  {
    var j: nat := i;
    while j > 0 && !le(a[j - 1], a[j])
      invariant SortedBut(a[..], i, j, le)
      invariant multiset(a[..]) == multiset(old(a[..]))
    {
      SwapDown(a[..], i, j, le);
      a[j - 1], a[j] := a[j], a[j - 1];
      j := j - 1;
    }
    InPlace(a[..], i, j, le);
  }

  function Swapped<T>(s: seq<T>, j: nat): seq<T>
    requires 0 < j < |s|
  {
    s[j - 1 := s[j]][j := s[j - 1]]
  }

  lemma SwapDown<T(!new)>(s: seq<T>, i: nat, j: nat, le: (T, T) -> bool)
    requires TotalOrder(le) && SortedBut(s, i, j, le) && j > 0 && !le(s[j - 1], s[j])
    ensures SortedBut(Swapped(s, j), i, j - 1, le) && multiset(Swapped(s, j)) == multiset(s)
  {
    var r := Swapped(s, j);
    forall p, q | 0 <= p < q <= i && q != j - 1 ensures le(r[p], r[q]) {
      if q == j && p < j - 1 {
        assert le(s[p], s[j - 1]);
      }
    }
  }

  lemma InPlace<T(!new)>(s: seq<T>, i: nat, j: nat, le: (T, T) -> bool)
    requires TotalOrder(le) && SortedBut(s, i, j, le) && (j > 0 ==> le(s[j - 1], s[j]))
    ensures Sorted(s[..i + 1], le)
  {
    forall p, q | 0 <= p < q <= i ensures le(s[p], s[q]) {
      if q == j && p < j - 1 {
        assert le(s[p], s[j - 1]);
      }
    }
  }

  lemma TakeOneMore<T>(s: seq<T>, i: nat)
    requires i < |s|
    ensures s[..i + 1] == s[..i] + [s[i]]
  {
  }

  lemma SameElements<T>(r: seq<T>, s: seq<T>)
    requires multiset(r) == multiset(s)
    ensures |r| == |s| && forall x :: x in r <==> x in s
  {
    assert forall x :: x in r <==> x in multiset(r);
    assert forall x :: x in s <==> x in multiset(s);
    assert |multiset(r)| == |r| && |multiset(s)| == |s|;
  }

  lemma HeadIsLeast<T(!new)>(r: seq<T>, x: T, le: (T, T) -> bool)
    requires Sorted(r, le) && x in r
    ensures r[0] == x || le(r[0], x)
  {
  }

  lemma RestIsRest<T>(r: seq<T>)
    requires r != []
    ensures multiset(r[1..]) == multiset(r) - multiset{r[0]}
  {
    assert r == [r[0]] + r[1..];
  }

  /** Where no two different elements are tied, sorting has one outcome. */
  lemma {:induction false} SortIsUnique<T(!new)>(r1: seq<T>, r2: seq<T>, le: (T, T) -> bool)
    requires forall x, y :: le(x, y) && le(y, x) ==> x == y
    requires Sorted(r1, le) && Sorted(r2, le) && multiset(r1) == multiset(r2)
    ensures r1 == r2
  {
    SameElements(r1, r2);
    if r1 != [] {
      HeadIsLeast(r1, r2[0], le);
      HeadIsLeast(r2, r1[0], le);
      RestIsRest(r1);
      RestIsRest(r2);
      SortIsUnique(r1[1..], r2[1..], le);
      assert r1 == [r1[0]] + r1[1..] && r2 == [r2[0]] + r2[1..];
    }
  }

  /** Some arrangement of every sequence is sorted. */
  lemma {:induction false} SortExists<T(!new)>(s: seq<T>, le: (T, T) -> bool) returns (r: seq<T>)
    requires TotalOrder(le)
    ensures SortOf(r, s, le)
  {
    if s == [] {
      r := [];
    } else {
      var rest := SortExists(s[1..], le);
      r := InsertInto(rest, s[0], le);
      assert s == [s[0]] + s[1..];
    }
  }

  lemma {:induction false} InsertInto<T(!new)>(s: seq<T>, x: T, le: (T, T) -> bool) returns (r: seq<T>)
    requires TotalOrder(le) && Sorted(s, le)
    ensures Sorted(r, le) && multiset(r) == multiset(s) + multiset{x}
  {
    if s == [] || le(x, s[0]) {
      r := [x] + s;
    } else {
      var rest := InsertInto(s[1..], x, le);
      r := [s[0]] + rest;
      assert s == [s[0]] + s[1..];
      SameElements(rest, s[1..] + [x]);
      forall y | y in rest ensures le(s[0], y) {
        assert y in s[1..] || y == x;
      }
    }
  }
}
