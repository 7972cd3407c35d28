/** Stable sorting by a total preorder: what `slice::sort` and `sort_by` return. */
module Sorting {

  ghost predicate IsTotalPreorder<T(!new)>(le: (T, T) -> bool) {
    && (forall x, y :: le(x, y) || le(y, x))
    && (forall x, y, z :: le(x, y) && le(y, z) ==> le(x, z))
  }

  ghost predicate Sorted<T>(xs: seq<T>, le: (T, T) -> bool) {
    forall i, j | 0 <= i < j < |xs| :: le(xs[i], xs[j])
  }

  function Insert<T>(x: T, sorted: seq<T>, le: (T, T) -> bool): seq<T> {
    if sorted == [] || le(x, sorted[0]) then [x] + sorted else [sorted[0]] + Insert(x, sorted[1..], le)
  }

  function Sort<T>(xs: seq<T>, le: (T, T) -> bool): seq<T> {
    if xs == [] then [] else Insert(xs[0], Sort(xs[1..], le), le)
  }

  lemma {:induction false} InsertKeepsSorted<T(!new)>(x: T, sorted: seq<T>, le: (T, T) -> bool)
    requires IsTotalPreorder(le) && Sorted(sorted, le)
    ensures Sorted(Insert(x, sorted, le), le)
    ensures multiset(Insert(x, sorted, le)) == multiset{x} + multiset(sorted)
  {
    if sorted == [] || le(x, sorted[0]) {
      SortedCons(x, sorted, le);
    } else {
      var tail := sorted[1..];
      InsertKeepsSorted(x, tail, le);
      assert sorted == [sorted[0]] + tail;
      SameElements(Insert(x, tail, le), [x] + tail);
      SortedCons(sorted[0], Insert(x, tail, le), le);
    }
  }

  lemma SameElements<T>(xs: seq<T>, ys: seq<T>)
    requires multiset(xs) == multiset(ys)
    ensures forall y | y in xs :: y in ys
  {
    forall y | y in xs ensures y in ys {
      assert y in multiset(xs);
    }
  }

  lemma SortedCons<T(!new)>(x: T, xs: seq<T>, le: (T, T) -> bool)
    requires IsTotalPreorder(le) && Sorted(xs, le)
    requires (forall y | y in xs :: le(x, y)) || xs == [] || le(x, xs[0])
    ensures Sorted([x] + xs, le)
  {
    forall i | 0 <= i < |xs| ensures le(x, xs[i]) {
      assert xs[i] in xs;
      if i > 0 {
        assert le(xs[0], xs[i]);
      }
    }
  }

  lemma {:induction false} SortSorts<T(!new)>(xs: seq<T>, le: (T, T) -> bool)
    requires IsTotalPreorder(le)
    ensures Sorted(Sort(xs, le), le) && multiset(Sort(xs, le)) == multiset(xs)
  {
    if xs != [] {
      SortSorts(xs[1..], le);
      InsertKeepsSorted(xs[0], Sort(xs[1..], le), le);
      assert xs == [xs[0]] + xs[1..];
    }
  }

  /** A multiset has one sorted listing under an antisymmetric order. */
  lemma {:induction false} SortedListingIsUnique<T(!new)>(xs: seq<T>, ys: seq<T>, le: (T, T) -> bool)
    requires IsTotalPreorder(le) && forall x, y :: le(x, y) && le(y, x) ==> x == y
    requires Sorted(xs, le) && Sorted(ys, le) && multiset(xs) == multiset(ys)
    ensures xs == ys
  {
    assert |multiset(xs)| == |xs| && |multiset(ys)| == |ys|;
    if xs != [] {
      HeadIsLeast(xs, ys, le);
      HeadIsLeast(ys, xs, le);
      HeadRemoved(xs);
      HeadRemoved(ys);
      SortedListingIsUnique(xs[1..], ys[1..], le);
    }
  }

  lemma HeadRemoved<T>(xs: seq<T>)
    requires xs != []
    ensures xs == [xs[0]] + xs[1..] && multiset(xs[1..]) == multiset(xs) - multiset{xs[0]}
  {
    assert xs == [xs[0]] + xs[1..];
  }

  lemma HeadIsLeast<T(!new)>(xs: seq<T>, ys: seq<T>, le: (T, T) -> bool)
    requires IsTotalPreorder(le) && Sorted(xs, le) && multiset(xs) == multiset(ys) && xs != [] && ys != []
    ensures le(xs[0], ys[0])
  {
    assert ys[0] in multiset(ys);
    var j :| 0 <= j < |xs| && xs[j] == ys[0];
  }
}
