/** Weighted sums over sequences, the arithmetic behind every counter of the models. */
module Counting {

  ghost function Sum<X>(xs: seq<X>, weight: X -> nat): nat
  {
    if xs == [] then 0 else Sum(xs[..|xs| - 1], weight) + weight(xs[|xs| - 1])
  }

  lemma {:induction false} SumUpdate<X>(xs: seq<X>, i: nat, x: X, weight: X -> nat)
    requires i < |xs|
    ensures Sum(xs[i := x], weight) + weight(xs[i]) == Sum(xs, weight) + weight(x)
  {
    var n := |xs| - 1;
    if i == n {
      assert xs[i := x][..n] == xs[..n];
    } else {
      assert xs[i := x][..n] == xs[..n][i := x];
      SumUpdate(xs[..n], i, x, weight);
    }
  }

  lemma {:induction false} SumConcat<X>(xs: seq<X>, ys: seq<X>, weight: X -> nat)
    ensures Sum(xs + ys, weight) == Sum(xs, weight) + Sum(ys, weight)
  {
    if ys == [] {
      assert xs + ys == xs;
    } else {
      assert (xs + ys)[..|xs + ys| - 1] == xs + ys[..|ys| - 1];
      SumConcat(xs, ys[..|ys| - 1], weight);
    }
  }

  lemma {:induction false} SumSingle<X>(x: X, weight: X -> nat)
    ensures Sum([x], weight) == weight(x)
  {
    assert [x][..0] == [];
  }

  /** A sum splits into its first element and the rest. */
  lemma {:induction false} SumFirst<X>(xs: seq<X>, weight: X -> nat)
    requires xs != []
    ensures Sum(xs, weight) == weight(xs[0]) + Sum(xs[1..], weight)
  {
    assert xs == [xs[0]] + xs[1..];
    SumConcat([xs[0]], xs[1..], weight);
    SumSingle(xs[0], weight);
  }

  /** Weights that never exceed `bound` sum to at most `bound` per element. */
  lemma {:induction false} SumAtMost<X>(xs: seq<X>, weight: X -> nat, bound: nat)
    requires forall i :: 0 <= i < |xs| ==> weight(xs[i]) <= bound
    ensures Sum(xs, weight) <= bound * |xs|
  {
    if xs != [] {
      SumAtMost(xs[..|xs| - 1], weight, bound);
      assert bound * |xs| == bound * (|xs| - 1) + bound;
    }
  }

  lemma {:induction false} SumAtLeast<X>(xs: seq<X>, weight: X -> nat, i: nat)
    requires i < |xs|
    ensures Sum(xs, weight) >= weight(xs[i])
  {
    if i < |xs| - 1 {
      SumAtLeast(xs[..|xs| - 1], weight, i);
    }
  }

  /** A sum is zero exactly when every weight is. */
  lemma {:induction false} SumZero<X>(xs: seq<X>, weight: X -> nat)
    ensures Sum(xs, weight) == 0 <==> forall i :: 0 <= i < |xs| ==> weight(xs[i]) == 0
  {
    if xs != [] {
      SumZero(xs[..|xs| - 1], weight);
      var n := |xs| - 1;
      assert forall i :: 0 <= i < n ==> xs[..n][i] == xs[i];
      assert forall i :: 0 <= i < n ==> xs[i] == xs[..n][i];
    }
  }

  /** Two sequences whose elements carry the same weights have the same sum. */
  lemma {:induction false} SumSame<X>(xs: seq<X>, ys: seq<X>, weight: X -> nat)
    requires |xs| == |ys|
    requires forall i :: 0 <= i < |xs| ==> weight(xs[i]) == weight(ys[i])
    ensures Sum(xs, weight) == Sum(ys, weight)
  {
    if xs != [] {
      SumSame(xs[..|xs| - 1], ys[..|ys| - 1], weight);
    }
  }

  /** Raising every weight by at most `rise` raises the sum by at most `rise` per element. */
  lemma {:induction false} SumRise<X>(xs: seq<X>, ys: seq<X>, weight: X -> nat, rise: nat)
    requires |xs| == |ys|
    requires forall i :: 0 <= i < |xs| ==> weight(ys[i]) <= weight(xs[i]) + rise
    ensures Sum(ys, weight) <= Sum(xs, weight) + rise * |xs|
  {
    if xs != [] {
      SumRise(xs[..|xs| - 1], ys[..|ys| - 1], weight, rise);
      assert rise * |xs| == rise * (|xs| - 1) + rise;
    }
  }
}
