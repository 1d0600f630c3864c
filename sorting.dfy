/** Sorting a sequence by a comparator: the meaning of pandas' `sort_values`
    and Mongo's `$sort`. Neither promises an order among equal keys, so only
    sortedness and being a permutation of the input are stated. */
module Sorting {

  ghost predicate TotalPreorder<T(!new)>(le: (T, T) -> bool)
  {
    && (forall a, b :: le(a, b) || le(b, a))
    && (forall a, b, c :: le(a, b) && le(b, c) ==> le(a, c))
  }

  ghost predicate Sorted<T>(xs: seq<T>, le: (T, T) -> bool)
  {
    forall i, j :: 0 <= i < j < |xs| ==> le(xs[i], xs[j])
  }

  /** A sorted sequence stays sorted under a new head that is below all of it. */
  lemma SortedCons<T>(y: T, rest: seq<T>, le: (T, T) -> bool)
    requires Sorted(rest, le)
    requires forall z :: z in rest ==> le(y, z)
    ensures Sorted([y] + rest, le)
  {
    var r := [y] + rest;
    forall i, j | 0 <= i < j < |r|
      ensures le(r[i], r[j])
    {
      assert r[j] == rest[j - 1];
      if i > 0 {
        assert r[i] == rest[i - 1];
      }
    }
  }

  function Insert<T(!new)>(x: T, xs: seq<T>, le: (T, T) -> bool): (r: seq<T>)
    requires TotalPreorder(le)
    requires Sorted(xs, le)
    ensures multiset(r) == multiset(xs) + multiset{x}
    ensures forall y :: y in r <==> y == x || y in xs
    ensures Sorted(r, le)
  {
    if xs == [] then [x]
    else if le(x, xs[0]) then
      assert forall z :: z in xs ==> le(xs[0], z);
      SortedCons(x, xs, le);
      [x] + xs
    else
      var rest := Insert(x, xs[1..], le);
      assert xs == [xs[0]] + xs[1..];
      assert forall y :: y in rest ==> le(xs[0], y);
      SortedCons(xs[0], rest, le);
      [xs[0]] + rest
  }

  /** Insertion sort by `le`. */
  function Sort<T(!new)>(xs: seq<T>, le: (T, T) -> bool): (r: seq<T>)
    requires TotalPreorder(le)
    ensures multiset(r) == multiset(xs)
    ensures Sorted(r, le)
  {
    if xs == [] then []
    else
      assert xs == [xs[0]] + xs[1..];
      Insert(xs[0], Sort(xs[1..], le), le)
  }
}
