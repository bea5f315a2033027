/** Insertion sort by a total preorder, and what a sorted permutation is worth. */
module Sorting {

  ghost predicate TotalPreorder<T(!new)>(le: (T, T) -> bool) {
    && (forall x, y :: le(x, y) || le(y, x))
    && (forall x, y, z :: le(x, y) && le(y, z) ==> le(x, z))
  }

  ghost predicate SortedBy<T>(le: (T, T) -> bool, xs: seq<T>) {
    forall i, j :: 0 <= i < j < |xs| ==> le(xs[i], xs[j])
  }

  /** Inserts x behind every element that is not greater than it. */
  function Insert<T>(le: (T, T) -> bool, xs: seq<T>, x: T): seq<T> {
    if xs == [] || le(xs[|xs| - 1], x) then xs + [x]
    else Insert(le, xs[..|xs| - 1], x) + [xs[|xs| - 1]]
  }

  lemma {:induction false} InsertKeepsElements<T>(le: (T, T) -> bool, xs: seq<T>, x: T)
    ensures multiset(Insert(le, xs, x)) == multiset(xs) + multiset{x}
  {
    if xs == [] || le(xs[|xs| - 1], x) {
    } else {
      InsertKeepsElements(le, xs[..|xs| - 1], x);
      assert xs == xs[..|xs| - 1] + [xs[|xs| - 1]];
    }
  }

  lemma {:induction false} InsertKeepsOrder<T(!new)>(le: (T, T) -> bool, xs: seq<T>, x: T)
    requires TotalPreorder(le) && SortedBy(le, xs)
    ensures SortedBy(le, Insert(le, xs, x))
  {
    if xs == [] || le(xs[|xs| - 1], x) {
    } else {
      var init, last := xs[..|xs| - 1], xs[|xs| - 1];
      InsertKeepsOrder(le, init, x);
      InsertKeepsElements(le, init, x);
      var r := Insert(le, init, x);
      forall i | 0 <= i < |r| ensures le(r[i], last) {
        assert r[i] in multiset(r);
        assert r[i] in multiset(init) + multiset{x};
        assert r[i] in init || r[i] == x;
      }
    }
  }

  function Sorted<T>(le: (T, T) -> bool, xs: seq<T>): seq<T> {
    if xs == [] then [] else Insert(le, Sorted(le, xs[..|xs| - 1]), xs[|xs| - 1])
  }

  lemma {:induction false} SortedIsOrdered<T(!new)>(le: (T, T) -> bool, xs: seq<T>)
    requires TotalPreorder(le)
    ensures SortedBy(le, Sorted(le, xs))
  {
    if xs != [] {
      SortedIsOrdered(le, xs[..|xs| - 1]);
      InsertKeepsOrder(le, Sorted(le, xs[..|xs| - 1]), xs[|xs| - 1]);
    }
  }

  lemma {:induction false} SortedKeepsElements<T>(le: (T, T) -> bool, xs: seq<T>)
    ensures multiset(Sorted(le, xs)) == multiset(xs)
    ensures |Sorted(le, xs)| == |xs|
  {
    if xs != [] {
      SortedKeepsElements(le, xs[..|xs| - 1]);
      InsertKeepsElements(le, Sorted(le, xs[..|xs| - 1]), xs[|xs| - 1]);
      assert xs == xs[..|xs| - 1] + [xs[|xs| - 1]];
    }
    assert |multiset(Sorted(le, xs))| == |multiset(xs)|;
  }

  /** Sorts by repeated insertion. */
  method Sort<T(!new)>(le: (T, T) -> bool, xs: seq<T>) returns (ys: seq<T>)
    requires TotalPreorder(le)
    ensures ys == Sorted(le, xs)
    ensures SortedBy(le, ys) && multiset(ys) == multiset(xs)
  {
    ys := [];
    for i := 0 to |xs|
      invariant ys == Sorted(le, xs[..i])
    {
      assert xs[..i + 1][..i] == xs[..i];
      ys := Insert(le, ys, xs[i]);
    }
    assert xs[..|xs|] == xs;
    SortedIsOrdered(le, xs);
    SortedKeepsElements(le, xs);
  }
}
