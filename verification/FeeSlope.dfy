/** How steep the taker-fee polynomial is: its slope, and a tangent bound that stands in for calculus. */
module FeeSlope {
  import opened Basics
  import opened Products
  import opened Fees

  /** How fast the fee of one share falls as the price rises through `p`, at rate 1. */
  function Steepness(p: real, n: nat): real
    requires n >= 1
  {
    p * Pow(Variance(p), n - 1) * ((2 * n + 1) as real * p - (n + 1) as real)
  }

  function FeeFall(rate: real, p: real, n: nat): real
    requires n >= 1
  {
    rate * Steepness(p, n)
  }

  // ----- A tangent bound for the fee polynomial -----

  /** `s` approximates the change from `x` to `y` over a step `d` up to `k` times its square. */
  predicate Tangent(x: real, y: real, s: real, d: real, k: real) {
    Abs(y - x - Times(s, d)) <= Times(k, Times(d, d))
  }

  /** The product rule, for x == f * g. */
  lemma TangentOfProduct(f: real, f': real, s: real, kf: real, g: real, g': real, t: real, kg: real, d: real,
                         x: real, x': real, u: real, k: real)
    requires Tangent(f, f', s, d, kf) && Tangent(g, g', t, d, kg)
    requires Abs(f) <= 1.0 && Abs(g') <= 1.0 && Abs(s) <= 1.0 && Abs(g' - g) <= Abs(d)
    requires x == Times(f, g) && x' == Times(f', g') && u == Times(s, g) + Times(f, t) && k == kf + kg + 1.0
    ensures Tangent(x, x', u, d, k)
  {
    hide Abs, Times;
    var z, ef, eg, dg := Times(d, d), f' - f - Times(s, d), g' - g - Times(t, d), g' - g;
    AbsScaled(ef, g', Times(kf, z));
    AbsScaled(eg, f, Times(kg, z));
    StepProduct(d, dg, s);
    ProductError(f, f', s, g, g', t, d);
    ProductBound(Times(ef, g'), Times(eg, f), Times(Times(d, dg), s), x' - x - Times(u, d), kf, kg, k, z);
  }

  lemma ProductBound(a: real, b: real, c: real, e: real, kf: real, kg: real, k: real, z: real)
    requires Abs(a) <= Times(kf, z) && Abs(b) <= Times(kg, z) && Abs(c) <= z && e == a + b + c && k == kf + kg + 1.0
    ensures Abs(e) <= Times(k, z)
  {
    hide Times;
    Distributes(kf, kg, z);
    Distributes(kf + kg, 1.0, z);
    Unit(z);
  }

  lemma StepProduct(d: real, x: real, s: real)
    requires Abs(s) <= 1.0 && Abs(x) <= Abs(d)
    ensures Abs(Times(Times(d, x), s)) <= Times(d, d)
  {
    hide Times, Abs;
    AbsProduct(d, x);
    AbsNonNegative(d);
    Mono(Abs(x), Abs(d), Abs(d));
    Square(d);
    AbsScaled(Times(d, x), s, Times(d, d));
  }

  lemma AbsNonNegative(d: real)
    ensures Abs(d) >= 0.0
  {
  }

  lemma ProductError(f: real, f': real, s: real, g: real, g': real, t: real, d: real)
    ensures Times(f', g') - Times(f, g) - Times(Times(s, g) + Times(f, t), d)
         == Times(f' - f - Times(s, d), g') + Times(g' - g - Times(t, d), f) + Times(Times(d, g' - g), s)
  {
  }

  lemma VarianceTangent(p: real, q: real)
    requires 0.0 <= p <= 1.0 && 0.0 <= q <= 1.0
    ensures Tangent(Variance(p), Variance(q), 1.0 - 2.0 * p, q - p, 1.0)
    ensures Abs(Variance(q) - Variance(p)) <= Abs(q - p)
  {
    hide Times, Variance;
    VarianceDiff(p, q);
    Square(q - p);
    Unit(Times(q - p, q - p));
    AbsScaled(q - p, 1.0 - p - q, Abs(q - p));
  }

  lemma VarianceDiff(p: real, q: real)
    ensures Variance(q) - Variance(p) - Times(1.0 - 2.0 * p, q - p) == -Times(q - p, q - p)
    ensures Variance(q) - Variance(p) == Times(q - p, 1.0 - p - q)
  {
  }

  lemma VarianceRange(p: real)
    requires 0.0 <= p <= 1.0
    ensures 0.0 <= Variance(p) <= 0.25
  {
    if 0.0 < p < 1.0 { VarianceBounds(p); }
  }

  /** Slope of the n-th power of the variance. */
  function PowSlope(p: real, n: nat): real {
    if n == 0 then 0.0 else Times(Times(n as real, Pow(Variance(p), n - 1)), 1.0 - 2.0 * p)
  }

  lemma PowUnfolds(x: real, n: nat)
    ensures Pow(x, 0) == 1.0
    ensures n >= 1 ==> Pow(x, n) == Times(x, Pow(x, n - 1))
  {
  }

  lemma PowSlopeStep(p: real, n: nat)
    requires n >= 1
    ensures PowSlope(p, n) == Times(1.0 - 2.0 * p, Pow(Variance(p), n - 1)) + Times(Variance(p), PowSlope(p, n - 1))
  {
    hide Variance, Pow, Times;
    var v, s := Variance(p), 1.0 - 2.0 * p;
    PowUnfolds(v, n - 1);
    if n == 1 {
      Unit(1.0);
      Unit(s);
      Unit(v);
    } else {
      assert n as real == (n - 1) as real + 1.0;
      SlopeAlgebra((n - 1) as real, v, Pow(v, n - 2), s);
    }
  }

  lemma SlopeAlgebra(k: real, v: real, w: real, s: real)
    ensures Times(Times(k + 1.0, Times(v, w)), s) == Times(s, Times(v, w)) + Times(v, Times(Times(k, w), s))
  {
  }

  /** Powers of the variance move no faster than the price. */
  lemma PowStep(p: real, q: real, n: nat)
    requires 0.0 <= p <= 1.0 && 0.0 <= q <= 1.0
    ensures Abs(Pow(Variance(q), n) - Pow(Variance(p), n)) <= Abs(q - p)
    ensures 0.0 <= Pow(Variance(p), n) <= 1.0
  {
    hide Variance, Pow, Times;
    VarianceTangent(p, q);
    VarianceRange(p);
    VarianceRange(q);
    PowBounds(Variance(p), n);
    if Variance(p) <= Variance(q) {
      PowMonotone(Variance(p), Variance(q), n);
      PowLipschitz(Variance(p), Variance(q), n);
    } else {
      PowMonotone(Variance(q), Variance(p), n);
      PowLipschitz(Variance(q), Variance(p), n);
    }
  }

  lemma {:induction false} PowTangent(p: real, q: real, n: nat)
    requires 0.0 <= p <= 1.0 && 0.0 <= q <= 1.0
    ensures Tangent(Pow(Variance(p), n), Pow(Variance(q), n), PowSlope(p, n), q - p, 2.0 * n as real)
  {
    hide Variance, Tangent, Pow, Times;
    PowUnfolds(Variance(p), n);
    PowUnfolds(Variance(q), n);
    if n == 0 {
      FlatTangent(1.0, q - p);
    } else {
      PowTangent(p, q, n - 1);
      VarianceTangent(p, q);
      VarianceRange(p);
      PowStep(p, q, n - 1);
      PowStep(q, p, n - 1);
      PowSlopeStep(p, n);
      TangentOfProduct(Variance(p), Variance(q), 1.0 - 2.0 * p, 1.0,
                       Pow(Variance(p), n - 1), Pow(Variance(q), n - 1), PowSlope(p, n - 1), 2.0 * (n - 1) as real,
                       q - p,
                       Pow(Variance(p), n), Pow(Variance(q), n), PowSlope(p, n), 2.0 * n as real);
    }
  }

  lemma FlatTangent(x: real, d: real)
    ensures Tangent(x, x, 0.0, d, 0.0)
  {
  }

  lemma WeightedTangent(p: real, q: real, n: nat)
    requires 0.0 <= p <= 1.0 && 0.0 <= q <= 1.0 && n >= 1
    ensures Tangent(Weighted(p, n), Weighted(q, n), -Steepness(p, n), q - p, (2 * n + 1) as real)
  {
    hide Variance, PowSlope, Tangent, Pow, Steepness, Times, Weighted;
    PowTangent(p, q, n);
    PowStep(p, q, n);
    PowStep(q, p, n);
    LineTangent(p, q);
    SteepnessIs(p, n);
    WeightedIs(p, n);
    WeightedIs(q, n);
    TangentOfProduct(p, q, 1.0, 0.0, Pow(Variance(p), n), Pow(Variance(q), n), PowSlope(p, n), 2.0 * n as real, q - p,
                     Weighted(p, n), Weighted(q, n), -Steepness(p, n), (2 * n + 1) as real);
  }

  lemma WeightedIs(p: real, n: nat)
    ensures Weighted(p, n) == Times(p, Pow(Variance(p), n))
  {
  }

  lemma LineTangent(p: real, q: real)
    ensures Tangent(p, q, 1.0, q - p, 0.0)
  {
  }

  lemma SteepnessIs(p: real, n: nat)
    requires n >= 1
    ensures -Steepness(p, n) == Times(1.0, Pow(Variance(p), n)) + Times(p, PowSlope(p, n))
  {
    PowUnfolds(Variance(p), n);
    SteepnessUnfolds(p, n);
    VarianceUnfolds(p);
    hide Pow, Variance, Times, Steepness;
    SteepAlgebra(p, Pow(Variance(p), n - 1), n as real);
  }

  lemma SteepnessUnfolds(p: real, n: nat)
    requires n >= 1
    ensures Steepness(p, n)
         == Times(Times(p, Pow(Variance(p), n - 1)), Times(2.0 * n as real + 1.0, p) - (n as real + 1.0))
  {
    hide Pow, Variance;
    assert (2 * n + 1) as real == 2.0 * n as real + 1.0 && (n + 1) as real == n as real + 1.0;
  }

  lemma VarianceUnfolds(p: real)
    ensures Variance(p) == Times(p, 1.0 - p)
  {
  }

  lemma SteepAlgebra(p: real, w: real, k: real)
    ensures -Times(Times(p, w), Times(2.0 * k + 1.0, p) - (k + 1.0))
         == Times(1.0, Times(Times(p, 1.0 - p), w)) + Times(p, Times(Times(k, w), 1.0 - 2.0 * p))
  {
  }
}
