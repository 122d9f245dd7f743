/** Sequence folds shared by the loops that append to a result list element by element. */
module Seqs {

  /** The lists that `f` gives for each element, joined in element order. */
  function FlatMap<T, U>(xs: seq<T>, f: T -> seq<U>): seq<U>
    decreases |xs|
  {
    if xs == [] then [] else FlatMap(xs[..|xs| - 1], f) + f(xs[|xs| - 1])
  }

  /** The fold of a concatenation is the concatenation of the folds. */
  lemma {:induction false} FlatMapAppend<T, U>(a: seq<T>, b: seq<T>, f: T -> seq<U>)
    ensures FlatMap(a + b, f) == FlatMap(a, f) + FlatMap(b, f)
    decreases |b|
  {
    if b == [] {
      assert a + b == a;
    } else {
      var n := |b|;
      assert (a + b)[..|a + b| - 1] == a + b[..n - 1];
      assert (a + b)[|a + b| - 1] == b[n - 1];
      FlatMapAppend(a, b[..n - 1], f);
    }
  }

  /** Extending a prefix by one element extends its fold by what `f` gives for that element. */
  lemma FlatMapPrefix<T, U>(xs: seq<T>, i: int, f: T -> seq<U>)
    requires 0 <= i < |xs|
    ensures FlatMap(xs[..i + 1], f) == FlatMap(xs[..i], f) + f(xs[i])
  {
    assert xs[..i + 1][..i] == xs[..i];
  }

  /** The fold of one element is what `f` gives for it. */
  lemma FlatMapOne<T, U>(x: T, f: T -> seq<U>)
    ensures FlatMap([x], f) == f(x)
  {
    assert [x][..0] == [];
  }

  /** When every element gives exactly one value, the fold is the list of those values. */
  lemma {:induction false} FlatMapSingles<T, U>(xs: seq<T>, ys: seq<U>, f: T -> seq<U>)
    requires |xs| == |ys|
    requires forall k :: 0 <= k < |xs| ==> f(xs[k]) == [ys[k]]
    ensures FlatMap(xs, f) == ys
    decreases |xs|
  {
    if xs != [] {
      var n := |xs|;
      FlatMapSingles(xs[..n - 1], ys[..n - 1], f);
      assert ys == ys[..n - 1] + [ys[n - 1]];
    }
  }
}
