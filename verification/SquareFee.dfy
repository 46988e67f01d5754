/** The locked-profit condition at exponent 2, the exponent of the older crypto fee, as an inequality on the rate. */
module SquareFee {
  import opened Basics
  import opened Products
  import opened Fees
  import opened FeeSlope
  import opened LockedEdge

  /** The largest safe rate at exponent 2 is the smaller root of (500 - 9 r)^2 == 3456 r^2, about 7.38. */
  predicate SafeSquareRate(rate: real) {
    9.0 * rate <= 500.0 && Times(500.0 - 9.0 * rate, 500.0 - 9.0 * rate) >= 3456.0 * Times(rate, rate)
  }

  /** 2000 times the steepness at exponent 2 and price (6 + t) / 10. */
  function Quartic(t: real): real {
    Times(Times(6.0 + t, 6.0 + t), Times(t, 4.0 - t))
  }

  lemma SteepnessIsQuartic(p: real)
    ensures 2000.0 * Steepness(p, 2) == Quartic(10.0 * p - 6.0)
  {
    PowOne(Variance(p));
    QuarticAlgebra(p, 10.0 * p - 6.0);
  }

  lemma QuarticAlgebra(p: real, t: real)
    requires t == 10.0 * p - 6.0
    ensures 2000.0 * (p * (p * (1.0 - p)) * (5.0 * p - 3.0)) == Quartic(t)
  {
  }

  /** The quartic stays within 96 times the root of 6 around 36: its distance has an explicit factorisation. */
  lemma QuarticBounded(t: real)
    requires 0.0 <= t <= 4.0
    ensures Times(Quartic(t) - 36.0, Quartic(t) - 36.0) <= 55296.0
  {
    hide Times, Quartic;
    var a, b := Times(t, t) + 8.0 * t + 6.0, t + 8.0;
    var e := Times(t, t) - 6.0;
    NonNegative(t, t);
    Mono(t, 4.0, t);
    FourTimes(t);
    Mono(a, 4.8 * b, a);
    Mono(a, 4.8 * b, 4.8 * b);
    ScaledSquare(b);
    Square(b);
    Square(e);
    NonNegative(Times(e, e), 24.0 * Times(b, b) - Times(a, a));
    QuarticDistance(t, a, b, e);
  }

  lemma FourTimes(t: real)
    ensures Times(4.0, t) == 4.0 * t
  {
  }

  lemma ScaledSquare(b: real)
    ensures Times(4.8 * b, 4.8 * b) == 23.04 * Times(b, b)
  {
  }

  lemma QuarticDistance(t: real, a: real, b: real, e: real)
    requires a == Times(t, t) + 8.0 * t + 6.0 && b == t + 8.0 && e == Times(t, t) - 6.0
    ensures 55296.0 - Times(Quartic(t) - 36.0, Quartic(t) - 36.0)
            == Times(Times(e, e), 24.0 * Times(b, b) - Times(a, a))
  {
    var z := t * t;
    QuarticIs(t, z);
    DistanceAlgebra(t, z);
  }

  lemma QuarticIs(t: real, z: real)
    requires z == t * t
    ensures Quartic(t) - 36.0 == 144.0 * t + 12.0 * z - 8.0 * (t * z) - z * z - 36.0
  {
  }

  lemma DistanceAlgebra(t: real, z: real)
    requires z == t * t
    ensures var x := 144.0 * t + 12.0 * z - 8.0 * (t * z) - z * z - 36.0;
            55296.0 - x * x
              == ((z - 6.0) * (z - 6.0)) * (24.0 * ((t + 8.0) * (t + 8.0)) - (z + 8.0 * t + 6.0) * (z + 8.0 * t + 6.0))
  {
  }

  /** Squares compare like the non-negative numbers they come from. */
  lemma RootOrder(x: real, y: real)
    requires x >= 0.0 && y >= 0.0 && Times(x, x) <= Times(y, y)
    ensures x <= y
  {
    hide Times;
    if x > y {
      Mono(y, x, y);
      StrictMono(y, x, x);
    }
  }

  lemma SafeSquareIsNeverSteep(rate: real, p: real)
    requires rate > 0.0 && SafeSquareRate(rate) && 0.0 < p < 1.0
    ensures FeeFall(rate, p, 2) <= 1.0
  {
    hide Times, Quartic, Steepness;
    var t := 10.0 * p - 6.0;
    SteepnessIsQuartic(p);
    var g := Quartic(t);
    if t <= 0.0 {
      QuarticSign(t);
      MulLe(Steepness(p, 2), 0.0, rate);
    } else {
      QuarticBounded(t);
      if g > 36.0 {
        ScaledRoots(rate, g - 36.0);
        RootOrder(Times(rate, g - 36.0), 4.0 * (500.0 - 9.0 * rate));
      } else {
        Mono(g - 36.0, 0.0, rate);
        Unit(rate);
      }
      BackToSteepness(rate, g, Steepness(p, 2));
    }
  }

  lemma QuarticSign(t: real)
    requires -6.0 <= t <= 0.0
    ensures Quartic(t) <= 0.0
  {
    hide Times;
    Square(6.0 + t);
    Mono(t, 0.0, 4.0 - t);
    Unit(4.0 - t);
    Mono(Times(t, 4.0 - t), 0.0, Times(6.0 + t, 6.0 + t));
    Unit(Times(6.0 + t, 6.0 + t));
  }

  lemma ScaledRoots(rate: real, x: real)
    requires rate > 0.0 && x > 0.0 && SafeSquareRate(rate) && Times(x, x) <= 55296.0
    ensures Times(rate, x) > 0.0
    ensures Times(Times(rate, x), Times(rate, x))
         <= Times(4.0 * (500.0 - 9.0 * rate), 4.0 * (500.0 - 9.0 * rate))
  {
    hide Times;
    Positive(rate, x);
    Square(rate);
    Mono(Times(x, x), 55296.0, Times(rate, rate));
    RootAlgebra(rate, x, 500.0 - 9.0 * rate);
  }

  lemma RootAlgebra(rate: real, x: real, y: real)
    ensures Times(Times(rate, x), Times(rate, x)) == Times(Times(rate, rate), Times(x, x))
    ensures Times(4.0 * y, 4.0 * y) == 16.0 * Times(y, y)
    ensures Times(Times(rate, rate), 55296.0) == 55296.0 * Times(rate, rate)
  {
  }

  lemma BackToSteepness(rate: real, g: real, steep: real)
    requires 2000.0 * steep == g && Times(rate, g - 36.0) <= 4.0 * (500.0 - 9.0 * rate)
    ensures rate * steep <= 1.0
  {
    assert Times(rate, g - 36.0) == 2000.0 * (rate * steep) - 36.0 * rate;
  }

  /** A rate outside the closed form is too steep at a price that can be written down. */
  lemma UnsafeSquareIsSteep(rate: real) returns (p: real)
    requires rate > 0.0 && !SafeSquareRate(rate)
    ensures 0.0 < p < 1.0 && FeeFall(rate, p, 2) > 1.0
  {
    hide Steepness, Times, Quartic, FeeFall;
    if 57.0 * rate > 500.0 {
      p := 0.8;
      SteepAtFourFifths(rate);
    } else {
      var s := Ratio(500.0 - 9.0 * rate, 24.0 * rate);
      SteepRoot(rate, s);
      p := (6.0 + s) / 10.0;
      SteepnessIsQuartic(p);
      assert 10.0 * p - 6.0 == s;
      AboveOne(rate, s, p);
    }
  }

  lemma SteepAtFourFifths(rate: real)
    requires 57.0 * rate > 500.0
    ensures FeeFall(rate, 0.8, 2) > 1.0
  {
    SteepnessIsQuartic(0.8);
    assert Quartic(2.0) == 256.0;
    assert FeeFall(rate, 0.8, 2) == 0.128 * rate;
  }

  lemma Ratio(x: real, y: real) returns (s: real)
    requires y != 0.0
    ensures Times(s, y) == x
  {
    s := x / y;
    Divide(x, y);
  }

  /** The price to look at: `s` is at least 2 and below the root of 6. */
  lemma SteepRoot(rate: real, s: real)
    requires rate > 0.0 && 57.0 * rate <= 500.0 && !SafeSquareRate(rate) && Times(s, 24.0 * rate) == 500.0 - 9.0 * rate
    ensures 2.0 <= s && Times(s, s) < 6.0 && s < 4.0
  {
    hide Times;
    if s < 2.0 {
      StrictMono(s, 2.0, 24.0 * rate);
      TwoTimes(24.0 * rate);
    }
    Square(rate);
    Positive(rate, rate);
    SquareOfProduct(s, rate);
    if Times(s, s) >= 6.0 { Mono(6.0, Times(s, s), 576.0 * Times(rate, rate)); SixTimes(Times(rate, rate)); }
    if s >= 4.0 { Mono(4.0, s, s); FourTimes(s); }
  }

  lemma TwoTimes(x: real)
    ensures Times(2.0, x) == 2.0 * x
  {
  }

  lemma SixTimes(x: real)
    ensures Times(6.0, 576.0 * x) == 3456.0 * x
  {
  }

  lemma SquareOfProduct(s: real, rate: real)
    ensures Times(Times(s, 24.0 * rate), Times(s, 24.0 * rate)) == Times(Times(s, s), 576.0 * Times(rate, rate))
  {
  }

  lemma AboveOne(rate: real, s: real, p: real)
    requires rate > 0.0 && 2.0 <= s && Times(s, s) < 6.0 && Times(s, 24.0 * rate) == 500.0 - 9.0 * rate
    requires 2000.0 * Steepness(p, 2) == Quartic(s)
    ensures FeeFall(rate, p, 2) > 1.0
  {
    hide Times, Quartic, Steepness;
    var excess := Times(6.0 - Times(s, s), Times(s, s) + 8.0 * s - 6.0);
    Square(s);
    Positive(6.0 - Times(s, s), Times(s, s) + 8.0 * s - 6.0);
    ExcessAlgebra(s);
    Positive(rate, excess);
    AboveAlgebra(rate, s, Steepness(p, 2), excess);
  }

  lemma ExcessAlgebra(s: real)
    ensures Quartic(s) == 36.0 + 96.0 * s + Times(6.0 - Times(s, s), Times(s, s) + 8.0 * s - 6.0)
  {
  }

  lemma AboveAlgebra(rate: real, s: real, steep: real, excess: real)
    requires Times(s, 24.0 * rate) == 500.0 - 9.0 * rate && 2000.0 * steep == 36.0 + 96.0 * s + excess
    ensures 2000.0 * (rate * steep) == 2000.0 + Times(rate, excess)
  {
    assert rate * (2000.0 * steep) == 36.0 * rate + 96.0 * (rate * s) + rate * excess;
    assert 24.0 * (rate * s) == 500.0 - 9.0 * rate;
  }

  /** At exponent 2 the exact condition on the rate is a quadratic inequality. */
  lemma SquareExactly(rate: real)
    requires rate > 0.0
    ensures NeverSteep(rate, 2) <==> SafeSquareRate(rate)
  {
    hide FeeFall, SafeSquareRate;
    if SafeSquareRate(rate) {
      forall p | 0.0 < p < 1.0
        ensures FeeFall(rate, p, 2) <= 1.0
      {
        SafeSquareIsNeverSteep(rate, p);
      }
    } else {
      var p := UnsafeSquareIsSteep(rate);
    }
  }
}
