/** Order-preserving filtering of sequences (Python comprehensions with `if`). */
module Seqs {

  function Filter<T>(xs: seq<T>, p: T -> bool): (r: seq<T>)
    ensures |r| <= |xs|
    ensures forall i :: 0 <= i < |r| ==> r[i] in xs && p(r[i])
    ensures forall i :: 0 <= i < |xs| && p(xs[i]) ==> xs[i] in r
    decreases |xs|
  {
    if xs == [] then [] else (if p(xs[0]) then [xs[0]] else []) + Filter(xs[1..], p)
  }

  /** Filtering keeps the relative order: it distributes over concatenation. */
  lemma {:induction false} FilterConcat<T>(a: seq<T>, b: seq<T>, p: T -> bool)
    ensures Filter(a + b, p) == Filter(a, p) + Filter(b, p)
    decreases |a|
  {
    if a == [] {
      assert a + b == b;
    } else {
      assert (a + b)[1..] == a[1..] + b;
      FilterConcat(a[1..], b, p);
    }
  }

  lemma FilterSnoc<T>(a: seq<T>, x: T, p: T -> bool)
    ensures Filter(a + [x], p) == Filter(a, p) + (if p(x) then [x] else [])
  {
    FilterConcat(a, [x], p);
  }

  /** Applies `step` to each element in turn, from the first to the last. */
  function FoldLeft<S, X>(s: S, xs: seq<X>, step: (S, X) -> S): S
    decreases |xs|
  {
    if xs == [] then s else step(FoldLeft(s, xs[..|xs| - 1], step), xs[|xs| - 1])
  }

  lemma FoldLeftSnoc<S, X>(s: S, xs: seq<X>, x: X, step: (S, X) -> S)
    ensures FoldLeft(s, xs + [x], step) == step(FoldLeft(s, xs, step), x)
  {
    assert (xs + [x])[..|xs|] == xs;
  }
}
