/** Sums of a weight over a sequence. */
module Sums {

  function Sum<T>(xs: seq<T>, w: T -> real): real {
    if xs == [] then 0.0 else Sum(xs[..|xs| - 1], w) + w(xs[|xs| - 1])
  }

  lemma SumPush<T>(xs: seq<T>, x: T, w: T -> real)
    ensures Sum(xs + [x], w) == Sum(xs, w) + w(x)
  {
    assert (xs + [x])[..|xs|] == xs;
  }

  lemma {:induction false} SumConcat<T>(xs: seq<T>, ys: seq<T>, w: T -> real)
    ensures Sum(xs + ys, w) == Sum(xs, w) + Sum(ys, w)
  {
    if ys == [] {
      assert xs + ys == xs;
    } else {
      var n := |ys| - 1;
      SumConcat(xs, ys[..n], w);
      assert xs + ys == (xs + ys[..n]) + [ys[n]];
      SumPush(xs + ys[..n], ys[n], w);
    }
  }

  lemma SumAround<T>(xs: seq<T>, x: T, ys: seq<T>, w: T -> real)
    ensures Sum(xs + [x] + ys, w) == Sum(xs + ys, w) + w(x)
  {
    SumConcat(xs + [x], ys, w);
    SumPush(xs, x, w);
    SumConcat(xs, ys, w);
  }

  lemma SumRemove<T>(xs: seq<T>, i: nat, w: T -> real)
    requires i < |xs|
    ensures Sum(xs[..i] + xs[i + 1..], w) == Sum(xs, w) - w(xs[i])
  {
    assert xs == xs[..i] + [xs[i]] + xs[i + 1..];
    SumAround(xs[..i], xs[i], xs[i + 1..], w);
  }

  lemma {:induction false} SumNonNegative<T>(xs: seq<T>, w: T -> real)
    requires forall i | 0 <= i < |xs| :: w(xs[i]) >= 0.0
    ensures Sum(xs, w) >= 0.0
  {
    if xs != [] {
      SumNonNegative(xs[..|xs| - 1], w);
    }
  }

  lemma {:induction false} SumAtMost<T>(xs: seq<T>, w: T -> real, v: T -> real)
    requires forall i | 0 <= i < |xs| :: w(xs[i]) <= v(xs[i])
    ensures Sum(xs, w) <= Sum(xs, v)
  {
    if xs != [] {
      SumAtMost(xs[..|xs| - 1], w, v);
    }
  }
}
