/** Order-preserving filtering and sums over sequences: the meaning of a
    list comprehension with a condition, a `$match` stage and a column sum. */
module Seqs {

  /** `sub` is obtained from `xs` by deleting elements, keeping the order of the rest. */
  ghost predicate IsSubsequence<T>(sub: seq<T>, xs: seq<T>)
    decreases |xs|
  {
    if sub == [] then true
    else if xs == [] then false
    else (sub[0] == xs[0] && IsSubsequence(sub[1..], xs[1..])) || IsSubsequence(sub, xs[1..])
  }

  /** The elements of `xs` that satisfy `p`, in their original order. The
      last two postconditions determine the result uniquely: every
      occurrence of an accepted element is kept, no other element is. */
  function Filter<T(==,!new)>(xs: seq<T>, p: T -> bool): (r: seq<T>)
    ensures |r| <= |xs|
    ensures forall x :: x in r <==> x in xs && p(x)
    ensures forall x :: multiset(r)[x] == if p(x) then multiset(xs)[x] else 0
    ensures IsSubsequence(r, xs)
  {
    if xs == [] then []
    else
      var rest := Filter(xs[1..], p);
      assert xs == [xs[0]] + xs[1..];
      if p(xs[0]) then
        assert ([xs[0]] + rest)[1..] == rest;
        [xs[0]] + rest
      else
        rest
  }

  /** Filtering a stream with a new head: the head, if accepted, then the
      filtered rest. */
  lemma FilterCons<T(!new)>(x: T, rest: seq<T>, p: T -> bool)
    ensures Filter([x] + rest, p) == (if p(x) then [x] else []) + Filter(rest, p)
  {
    assert ([x] + rest)[1..] == rest;
  }

  /** `f` applied to every element, in order. */
  function Map<A, B>(xs: seq<A>, f: A -> B): (r: seq<B>)
    ensures |r| == |xs|
  {
    if xs == [] then [] else [f(xs[0])] + Map(xs[1..], f)
  }

  lemma {:induction false} MapIndex<A, B>(xs: seq<A>, f: A -> B, i: nat)
    requires i < |xs|
    ensures Map(xs, f)[i] == f(xs[i])
    decreases i
  {
    if i > 0 {
      MapIndex(xs[1..], f, i - 1);
    }
  }

  lemma {:induction false} MapAppend<A, B>(a: seq<A>, b: seq<A>, f: A -> B)
    ensures Map(a + b, f) == Map(a, f) + Map(b, f)
    decreases |a|
  {
    if a == [] {
      assert a + b == b;
    } else {
      assert (a + b)[0] == a[0] && (a + b)[1..] == a[1..] + b;
      MapAppend(a[1..], b, f);
    }
  }

  /** Mapping around the element at `i`. */
  lemma MapAround<A, B>(ys: seq<A>, i: nat, f: A -> B)
    requires i < |ys|
    ensures Map(ys, f) == Map(ys[..i], f) + ([f(ys[i])] + Map(ys[i + 1..], f))
    ensures Map(ys[..i] + ys[i + 1..], f) == Map(ys[..i], f) + Map(ys[i + 1..], f)
  {
    var tail := ys[i..];
    assert tail[0] == ys[i] && tail[1..] == ys[i + 1..];
    assert ys == ys[..i] + tail;
    MapAppend(ys[..i], tail, f);
    MapAppend(ys[..i], ys[i + 1..], f);
  }

  /** Taking out the element at `i` takes one occurrence out of the multiset. */
  lemma RemoveAt<T>(ys: seq<T>, i: nat)
    requires i < |ys|
    ensures multiset(ys[..i] + ys[i + 1..]) == multiset(ys) - multiset{ys[i]}
  {
    assert ys == ys[..i] + [ys[i]] + ys[i + 1..];
  }

  /** Putting an element back in the middle rather than at the front
      gives the same multiset. */
  lemma MultisetInsertAnywhere<T>(y: T, rest: seq<T>, l: seq<T>, r: seq<T>)
    requires multiset(rest) == multiset(l + r)
    ensures multiset([y] + rest) == multiset(l + ([y] + r))
  {
  }

  /** Reordering the elements reorders their images alike. */
  lemma {:induction false} MapMultiset<A, B>(xs: seq<A>, ys: seq<A>, f: A -> B)
    requires multiset(xs) == multiset(ys)
    ensures multiset(Map(xs, f)) == multiset(Map(ys, f))
    decreases |xs|
  {
    if xs == [] {
      assert |ys| == |multiset(ys)| == 0;
    } else {
      var x := xs[0];
      assert x in ys by { assert multiset(ys)[x] > 0; }
      var i :| 0 <= i < |ys| && ys[i] == x;
      RemoveAt(ys, i);
      assert multiset(xs[1..]) == multiset(xs) - multiset{x} by {
        assert xs == [x] + xs[1..];
      }
      MapMultiset(xs[1..], ys[..i] + ys[i + 1..], f);
      MapAround(ys, i, f);
      assert Map(xs, f) == [f(x)] + Map(xs[1..], f);
      MultisetInsertAnywhere(f(x), Map(xs[1..], f), Map(ys[..i], f), Map(ys[i + 1..], f));
    }
  }

  function Sum(xs: seq<real>): real
  {
    if xs == [] then 0.0 else xs[0] + Sum(xs[1..])
  }

  /** A vector of zeros sums to zero. */
  lemma {:induction false} SumZeros(xs: seq<real>)
    requires forall i :: 0 <= i < |xs| ==> xs[i] == 0.0
    ensures Sum(xs) == 0.0
  {
    if xs != [] {
      SumZeros(xs[1..]);
    }
  }
}
