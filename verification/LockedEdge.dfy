/**
 * When a two-leg spread locks its profit in: exactly for which fee parameters every pair quoted
 * with positive edge still pays after any price improvement on either leg.
 */
module LockedEdge {
  import opened Basics
  import opened Products
  import opened Fees
  import opened FeeSlope

  /** A pair quoted at (up, down) with positive edge and filled at (up', down') pays if `upWins`. */
  predicate PairPays(up: real, down: real, up': real, down': real, size: real, upWins: bool, fee: FeeParams) {
    0.0 < up' <= up < 1.0 && 0.0 < down' <= down < 1.0 && size > 0.0 && SpreadNetEdge(up, down, 1.0, fee) > 0.0 ==>
      TradePnl(up', size, upWins, fee) + TradePnl(down', size, !upWins, fee) > 0.0
  }

  /** The promise itself, for one set of fee parameters. */
  ghost predicate Locks(fee: FeeParams) {
    forall up: real, down: real, up': real, down': real, size: real, upWins: bool ::
      PairPays(up, down, up', down', size, upWins, fee)
  }

  /** At no price does the fee fall faster than the price rises. */
  ghost predicate NeverSteep(rate: real, n: nat)
    requires n >= 1
  {
    forall p | 0.0 < p < 1.0 :: FeeFall(rate, p, n) <= 1.0
  }

  /** The exact condition on the fee parameters. */
  ghost predicate SafeFee(fee: FeeParams) {
    fee.rate <= 0.0 || PowerUsed(fee.exponent) <= 1 || NeverSteep(fee.rate, PowerUsed(fee.exponent))
  }

  // ----- The cost of one share with its fee -----

  /** Curvature bound of the cost. */
  function Bend(fee: FeeParams): real {
    Times(fee.rate, (2 * PowerUsed(fee.exponent) + 1) as real)
  }

  /** Slope of the cost. */
  function Rise(p: real, fee: FeeParams): real
    requires PowerUsed(fee.exponent) >= 1
  {
    1.0 - Times(fee.rate, Steepness(p, PowerUsed(fee.exponent)))
  }

  lemma CostIs(p: real, fee: FeeParams)
    requires 0.0 < p < 1.0 && fee.rate > 0.0
    ensures CostWithFee(p, fee) == p + Times(Weighted(p, PowerUsed(fee.exponent)), fee.rate)
  {
    hide Weighted, TakerFee, PowerUsed;
    FeePerShare(p, fee);
  }

  lemma CostTangent(p: real, q: real, fee: FeeParams)
    requires 0.0 < p < 1.0 && 0.0 < q < 1.0 && fee.rate > 0.0 && PowerUsed(fee.exponent) >= 1
    ensures Tangent(CostWithFee(p, fee), CostWithFee(q, fee), Rise(p, fee), q - p, Bend(fee))
  {
    hide Weighted, Steepness, CostWithFee, Tangent, PowerUsed, Times;
    var n := PowerUsed(fee.exponent);
    CostIs(p, fee);
    CostIs(q, fee);
    WeightedTangent(p, q, n);
    ScaledTangent(Weighted(p, n), Weighted(q, n), Steepness(p, n), (2 * n + 1) as real, fee.rate, p, q,
                  CostWithFee(p, fee), CostWithFee(q, fee), Rise(p, fee), Bend(fee));
  }

  lemma ScaledTangent(w: real, w': real, s: real, k: real, rate: real, p: real, q: real,
                      c: real, c': real, u: real, k': real)
    requires Tangent(w, w', -s, q - p, k) && rate > 0.0
    requires c == p + Times(w, rate) && c' == q + Times(w', rate) && u == 1.0 - Times(rate, s) && k' == Times(rate, k)
    ensures Tangent(c, c', u, q - p, k')
  {
    hide Times;
    var d := q - p;
    var e, z := w' - w - Times(-s, d), Times(d, d);
    ErrorScales(w, w', s, rate, p, q);
    AbsProduct(e, rate);
    Mono(Abs(e), Times(k, z), rate);
    Comm(Times(k, z), rate);
    Assoc(rate, k, z);
  }

  lemma ErrorScales(w: real, w': real, s: real, rate: real, p: real, q: real)
    ensures (q + Times(w', rate)) - (p + Times(w, rate)) - Times(1.0 - Times(rate, s), q - p)
         == Times(w' - w - Times(-s, q - p), rate)
  {
  }

  lemma RiseNonNegative(p: real, fee: FeeParams)
    requires 0.0 < p < 1.0 && PowerUsed(fee.exponent) >= 1 && NeverSteep(fee.rate, PowerUsed(fee.exponent))
    ensures Rise(p, fee) >= 0.0
  {
    hide Steepness, PowerUsed;
    assert FeeFall(fee.rate, p, PowerUsed(fee.exponent)) <= 1.0;
  }

  /** A small step up loses at most the bend times its square where the cost is not steep. */
  lemma StepUp(p: real, d: real, fee: FeeParams)
    requires 0.0 < p && 0.0 <= d && p + d < 1.0 && fee.rate > 0.0 && PowerUsed(fee.exponent) >= 1
    requires NeverSteep(fee.rate, PowerUsed(fee.exponent))
    ensures CostWithFee(p + d, fee) >= CostWithFee(p, fee) - Times(Bend(fee), Times(d, d))
  {
    hide CostWithFee, NeverSteep, PowerUsed, Bend, Times, Rise;
    CostTangent(p, p + d, fee);
    assert p + d - p == d;
    RiseNonNegative(p, fee);
    NonNegative(Rise(p, fee), d);
  }

  /** `k` equal steps. */
  lemma {:induction false} WalkUp(p: real, step: real, k: nat, fee: FeeParams)
    requires 0.0 < p && 0.0 <= step && p + Times(k as real, step) < 1.0
    requires fee.rate > 0.0 && PowerUsed(fee.exponent) >= 1 && NeverSteep(fee.rate, PowerUsed(fee.exponent))
    ensures CostWithFee(p + Times(k as real, step), fee)
         >= CostWithFee(p, fee) - Times(k as real, Times(Bend(fee), Times(step, step)))
  {
    hide CostWithFee, NeverSteep, PowerUsed, Bend, Times;
    if k > 0 {
      var q := p + Times((k - 1) as real, step);
      NonNegative((k - 1) as real, step);
      OneMore(k, step);
      OneMore(k, Times(Bend(fee), Times(step, step)));
      WalkUp(p, step, k - 1, fee);
      StepUp(q, step, fee);
      assert q + step == p + Times(k as real, step);
    } else {
      Unit(step);
      Unit(Times(Bend(fee), Times(step, step)));
    }
  }

  lemma OneMore(k: nat, x: real)
    requires k > 0
    ensures Times(k as real, x) == Times((k - 1) as real, x) + x
  {
    hide Times;
    assert k as real == (k - 1) as real + 1.0;
    Distributes((k - 1) as real, 1.0, x);
    Unit(x);
  }

  /** Where the fee is never steep, a cheaper fill never costs more. */
  lemma NeverSteepIncreasing(p: real, q: real, fee: FeeParams)
    requires 0.0 < p <= q < 1.0 && fee.rate > 0.0 && PowerUsed(fee.exponent) >= 1
    requires NeverSteep(fee.rate, PowerUsed(fee.exponent))
    ensures CostWithFee(p, fee) <= CostWithFee(q, fee)
  {
    hide CostWithFee, NeverSteep, PowerUsed, Times, Bend;
    var d, gap := q - p, CostWithFee(p, fee) - CostWithFee(q, fee);
    if gap > 0.0 {
      var k := EnoughSteps(Times(Bend(fee), Times(d, d)), gap);
      var step := StepLength(d, k);
      assert p + Times(k as real, step) == q;
      WalkUp(p, step, k, fee);
      ErrorShrinks(Bend(fee), d, step, k as real);
      Mono(gap, Times(k as real, Times(Bend(fee), Times(step, step))), k as real);
      assert false;
    }
  }

  lemma StepLength(d: real, k: nat) returns (step: real)
    requires d >= 0.0 && k > 0
    ensures step >= 0.0 && Times(k as real, step) == d
  {
    step := d / k as real;
    Divide(d, k as real);
    hide Times;
    if step < 0.0 {
      Positive(k as real, -step);
      Negate(k as real, step);
    }
  }

  lemma EnoughSteps(x: real, gap: real) returns (k: nat)
    requires gap > 0.0
    ensures k > 0 && x < Times(k as real, gap)
  {
    var y := x / gap;
    Divide(x, gap);
    hide Times;
    k := if y < 0.0 then 1 else y.Floor + 1;
    StrictMono(y, k as real, gap);
  }

  lemma ErrorShrinks(bend: real, d: real, step: real, k: real)
    requires Times(k, step) == d
    ensures Times(k, Times(k, Times(bend, Times(step, step)))) == Times(bend, Times(d, d))
  {
    ShrinkAlgebra(bend, step, k);
  }

  lemma ShrinkAlgebra(bend: real, step: real, k: real)
    ensures Times(k, Times(k, Times(bend, Times(step, step)))) == Times(bend, Times(Times(k, step), Times(k, step)))
  {
  }

  // ----- A safe fee locks the profit in -----

  lemma CostAtLeastPrice(p: real, fee: FeeParams)
    ensures CostWithFee(p, fee) >= p
  {
    hide TakerFee;
    FeeNonNegative(p, 1.0, fee);
  }

  /** What a filled pair earns, in terms of its two costs. */
  lemma PairEarns(up: real, down: real, size: real, upWins: bool, fee: FeeParams)
    requires size > 0.0
    ensures TradePnl(up, size, upWins, fee) + TradePnl(down, size, !upWins, fee) > 0.0
       <==> CostWithFee(up, fee) + CostWithFee(down, fee) < 1.0
    ensures SpreadNetEdge(up, down, 1.0, fee) == 1.0 - CostWithFee(up, fee) - CostWithFee(down, fee)
  {
    EdgeIs(up, down, fee);
    PnlIsEdge(up, down, size, upWins, fee);
    NetEdgeLinear(up, down, size, fee);
    hide TakerFee, SpreadNetEdge, TradePnl, CostWithFee;
    var unit := SpreadNetEdge(up, down, 1.0, fee);
    if unit > 0.0 { MulPos(size, unit); } else { MulLe(unit, 0.0, size); }
  }

  lemma EdgeIs(up: real, down: real, fee: FeeParams)
    ensures SpreadNetEdge(up, down, 1.0, fee) == 1.0 - CostWithFee(up, fee) - CostWithFee(down, fee)
  {
    hide TakerFee;
  }

  lemma PnlIsEdge(up: real, down: real, size: real, upWins: bool, fee: FeeParams)
    requires size > 0.0
    ensures TradePnl(up, size, upWins, fee) + TradePnl(down, size, !upWins, fee) == SpreadNetEdge(up, down, size, fee)
  {
    hide TakerFee;
  }

  /** At exponent 1 the cost is increasing wherever it is below 1, whatever the rate. */
  lemma FirstPower(p: real, q: real, rate: real, c: real, c': real)
    requires 0.0 < p < q < 1.0 && rate > 0.0 && c' < 1.0
    requires c == p + Times(Times(p, Times(p, 1.0 - p)), rate) && c' == q + Times(Times(q, Times(q, 1.0 - q)), rate)
    ensures c < c'
  {
    hide Times;
    var z := Times(rate, Times(q, q));
    FeeBelowOne(q, rate, z);
    Positive(q + p, 1.0 - p);
    Positive(rate, Times(q + p, 1.0 - p));
    Positive(1.0 + Times(rate, Times(q + p, 1.0 - p)) - z, q - p);
    FirstPowerAlgebra(p, q, rate);
  }

  lemma FeeBelowOne(q: real, rate: real, z: real)
    requires 0.0 < q < 1.0 && z == Times(rate, Times(q, q)) && q + Times(Times(q, Times(q, 1.0 - q)), rate) < 1.0
    ensures z < 1.0
  {
    hide Times;
    FeeAlgebra(q, rate);
    if z >= 1.0 {
      Mono(1.0, z, 1.0 - q);
      Unit(1.0 - q);
    }
  }

  lemma FeeAlgebra(q: real, rate: real)
    ensures Times(Times(q, Times(q, 1.0 - q)), rate) == Times(Times(rate, Times(q, q)), 1.0 - q)
  {
  }

  lemma FirstPowerAlgebra(p: real, q: real, rate: real)
    ensures (q + Times(Times(q, Times(q, 1.0 - q)), rate)) - (p + Times(Times(p, Times(p, 1.0 - p)), rate))
         == Times(1.0 + Times(rate, Times(q + p, 1.0 - p)) - Times(rate, Times(q, q)), q - p)
  {
  }

  lemma LowPower(p: real, fee: FeeParams)
    requires 0.0 < p < 1.0 && fee.rate > 0.0
    ensures PowerUsed(fee.exponent) == 0 ==> CostWithFee(p, fee) == p + Times(p, fee.rate)
    ensures PowerUsed(fee.exponent) == 1 ==> CostWithFee(p, fee) == p + Times(Times(p, Times(p, 1.0 - p)), fee.rate)
  {
    CostIs(p, fee);
    hide CostWithFee, Pow, Times, Variance, Weighted;
    WeightedIs(p, PowerUsed(fee.exponent));
    PowUnfolds(Variance(p), 1);
    VarianceUnfolds(p);
    Unit(p);
    Unit(Variance(p));
  }

  /** Under a safe fee, a fill cheaper than a price whose cost is below 1 never costs more. */
  lemma CheaperFill(p: real, q: real, fee: FeeParams)
    requires SafeFee(fee) && 0.0 < p <= q < 1.0 && CostWithFee(q, fee) < 1.0
    ensures CostWithFee(p, fee) <= CostWithFee(q, fee)
  {
    if p < q && fee.rate > 0.0 {
      hide CostWithFee, NeverSteep, Pow, Times;
      LowPower(p, fee);
      LowPower(q, fee);
      if PowerUsed(fee.exponent) == 0 {
        Mono(p, q, fee.rate);
      } else if PowerUsed(fee.exponent) == 1 {
        FirstPower(p, q, fee.rate, CostWithFee(p, fee), CostWithFee(q, fee));
      } else {
        NeverSteepIncreasing(p, q, fee);
      }
    }
  }

  /** A pair quoted with positive edge and filled at or below its quotes, in equal size, pays whoever wins. */
  lemma LockedProfit(up: real, down: real, up': real, down': real, size: real, upWins: bool, fee: FeeParams)
    requires SafeFee(fee)
    ensures PairPays(up, down, up', down', size, upWins, fee)
  {
    hide CostWithFee, SafeFee, TradePnl, SpreadNetEdge;
    if 0.0 < up' <= up < 1.0 && 0.0 < down' <= down < 1.0 && size > 0.0 && SpreadNetEdge(up, down, 1.0, fee) > 0.0 {
      PairEarns(up, down, size, upWins, fee);
      PairEarns(up', down', size, upWins, fee);
      CostAtLeastPrice(up, fee);
      CostAtLeastPrice(down, fee);
      CheaperFill(up', up, fee);
      CheaperFill(down', down, fee);
    }
  }

  // ----- An unsafe fee does not -----

  /** Where the cost falls, some dearer fill costs less while its cost is still below 1. */
  lemma SteepBreaks(fee: FeeParams) returns (p: real, q: real)
    requires fee.rate > 0.0 && PowerUsed(fee.exponent) >= 2 && !NeverSteep(fee.rate, PowerUsed(fee.exponent))
    ensures 0.0 < p < q < 1.0 && CostWithFee(q, fee) < 1.0 && CostWithFee(q, fee) < CostWithFee(p, fee)
  {
    hide CostWithFee, Times, Rise, Bend;
    p := SteepPoint(fee);
    if CostWithFee(p, fee) >= 1.0 {
      q := BelowOneAgain(p, fee);
    } else {
      BendPositive(fee);
      var d := SmallerThan((1.0 - p) / 2.0, -Rise(p, fee), Bend(fee));
      q := p + d;
      CostTangent(p, q, fee);
      assert q - p == d;
      Descends(CostWithFee(p, fee), CostWithFee(q, fee), Rise(p, fee), d, Bend(fee));
    }
  }

  lemma SteepPoint(fee: FeeParams) returns (p: real)
    requires fee.rate > 0.0 && PowerUsed(fee.exponent) >= 1 && !NeverSteep(fee.rate, PowerUsed(fee.exponent))
    ensures 0.0 < p < 1.0 && Rise(p, fee) < 0.0
  {
    hide Steepness, PowerUsed;
    p :| 0.0 < p < 1.0 && !(FeeFall(fee.rate, p, PowerUsed(fee.exponent)) <= 1.0);
  }

  lemma BendPositive(fee: FeeParams)
    requires fee.rate > 0.0
    ensures Bend(fee) > 0.0
  {
    hide Times;
    Positive(fee.rate, (2 * PowerUsed(fee.exponent) + 1) as real);
  }

  /** A positive number below `limit` whose multiple by `k` is below `m`. */
  lemma SmallerThan(limit: real, m: real, k: real) returns (e: real)
    requires limit > 0.0 && m > 0.0 && k > 0.0
    ensures 0.0 < e <= limit && Times(k, e) < m
  {
    var whole := m / k;
    Divide(m, k);
    hide Times;
    if whole <= 0.0 {
      Mono(whole, 0.0, k);
      Unit(k);
    }
    e := Min(whole / 2.0, limit);
    StrictMono(e, whole, k);
  }

  lemma Descends(c: real, c': real, rise: real, d: real, bend: real)
    requires Tangent(c, c', rise, d, bend) && d > 0.0 && Times(bend, d) < -rise
    ensures c' < c
  {
    hide Times;
    StrictMono(Times(bend, d), -rise, d);
    Assoc(bend, d, d);
    Negate(rise, d);
  }

  lemma BelowOneAgain(p: real, fee: FeeParams) returns (q: real)
    requires 0.0 < p < 1.0 && fee.rate > 0.0 && PowerUsed(fee.exponent) >= 2
    ensures p < q < 1.0 && CostWithFee(q, fee) < 1.0
  {
    hide CostWithFee, PowerUsed, Times;
    var e := SmallerThan((1.0 - p) / 2.0, 1.0, fee.rate);
    q := 1.0 - e;
    NearOne(e, fee);
  }

  /** Close to 1 a fee of exponent 2 or more is smaller than what is left to 1. */
  lemma NearOne(e: real, fee: FeeParams)
    requires 0.0 < e < 1.0 && fee.rate > 0.0 && Times(fee.rate, e) < 1.0 && PowerUsed(fee.exponent) >= 2
    ensures CostWithFee(1.0 - e, fee) < 1.0
  {
    hide CostWithFee, PowerUsed, Weighted, Pow, Times;
    var q, n := 1.0 - e, PowerUsed(fee.exponent);
    CostIs(q, fee);
    WeightedNearOne(e, n);
    Mono(Weighted(q, n), Times(e, e), fee.rate);
    StrictMono(Times(fee.rate, e), 1.0, e);
    Assoc(fee.rate, e, e);
    Comm(fee.rate, Times(e, e));
    Unit(e);
  }

  lemma WeightedNearOne(e: real, n: nat)
    requires 0.0 < e < 1.0 && n >= 2
    ensures Weighted(1.0 - e, n) <= Times(e, e)
  {
    hide Weighted, Variance, Pow, Times;
    var q := 1.0 - e;
    var v := Variance(q);
    VarianceBounds(q);
    VarianceUnfolds(q);
    WeightedIs(q, n);
    assert 1.0 - q == e;
    Mono(q, 1.0, e);
    Unit(e);
    PowAtMostSquare(v, n);
    Mono(v, e, v);
    Mono(v, e, e);
    Mono(q, 1.0, Pow(v, n));
    Unit(Pow(v, n));
  }

  lemma PowAtMostSquare(x: real, n: nat)
    requires 0.0 <= x <= 1.0 && n >= 2
    ensures 0.0 <= Pow(x, n) <= Times(x, x)
  {
    hide Pow, Times;
    PowBounds(x, n - 1);
    Mono(Pow(x, n - 1), x, x);
    PowBounds(x, n);
    PowUnfolds(x, n);
  }

  /** The cost moves by no more than this multiple of the price. */
  function Speed(fee: FeeParams): real {
    1.0 + 2.0 * fee.rate
  }

  lemma CostSpeed(p: real, q: real, fee: FeeParams)
    requires 0.0 < p <= q < 1.0 && fee.rate > 0.0
    ensures CostWithFee(q, fee) - CostWithFee(p, fee) <= Times(Speed(fee), q - p)
  {
    hide CostWithFee, PowerUsed, Weighted, Times;
    var n, d := PowerUsed(fee.exponent), q - p;
    CostIs(p, fee);
    CostIs(q, fee);
    WeightedSpeed(p, q, n);
    Mono(Weighted(q, n) - Weighted(p, n), 2.0 * d, fee.rate);
    Subtract(Weighted(q, n), Weighted(p, n), fee.rate);
    SpeedIs(fee, d);
  }

  lemma SpeedIs(fee: FeeParams, d: real)
    ensures Times(Speed(fee), d) == d + Times(2.0 * d, fee.rate)
  {
  }

  lemma WeightedSpeed(p: real, q: real, n: nat)
    requires 0.0 < p <= q < 1.0
    ensures Weighted(q, n) - Weighted(p, n) <= 2.0 * (q - p)
  {
    hide Variance, Pow, Times, Weighted;
    PowStep(p, q, n);
    PowStep(q, p, n);
    WeightedIs(p, n);
    WeightedIs(q, n);
    SpeedBound(p, q, Pow(Variance(p), n), Pow(Variance(q), n));
  }

  lemma SpeedBound(p: real, q: real, a: real, b: real)
    requires 0.0 < p <= q < 1.0 && 0.0 <= b <= 1.0 && b - a <= q - p
    ensures Times(q, b) - Times(p, a) <= 2.0 * (q - p)
  {
    hide Times;
    Subtract(q, p, b);
    Subtract(b, a, p);
    Mono(b, 1.0, q - p);
    Mono(b - a, q - p, p);
    Mono(p, 1.0, q - p);
    Unit(q - p);
    Comm(b, p);
    Comm(a, p);
  }

  lemma CostFromZero(p: real, fee: FeeParams)
    requires 0.0 < p < 1.0 && fee.rate > 0.0
    ensures CostWithFee(p, fee) <= Times(Speed(fee), p)
  {
    hide CostWithFee, PowerUsed, Pow, Variance, Times, Weighted;
    var n := PowerUsed(fee.exponent);
    CostIs(p, fee);
    PowStep(p, p, n);
    WeightedIs(p, n);
    Mono(Pow(Variance(p), n), 1.0, p);
    Unit(p);
    Mono(Weighted(p, n), 2.0 * p, fee.rate);
    SpeedIs(fee, p);
  }

  /** Walk up from `x` until the cost reaches `low`; short steps cannot jump over `high`. */
  lemma {:induction false} WalkTo(x: real, step: real, k: nat, low: real, high: real, fee: FeeParams) returns (y: real)
    requires 0.0 < x && step > 0.0 && 0.0 < low < high < 1.0 && fee.rate > 0.0
    requires Times(Speed(fee), step) < high - low && x + Times(k as real, step) >= low && CostWithFee(x, fee) < low
    ensures 0.0 < y < 1.0 && low <= CostWithFee(y, fee) < high
    decreases k
  {
    hide CostWithFee, Speed, Times;
    CostAtLeastPrice(x, fee);
    Unit(step);
    if k == 0 {
      assert false;
    }
    SpeedAtLeastOne(fee, step);
    assert x + step < 1.0 && x + step - x == step;
    CostSpeed(x, x + step, fee);
    if CostWithFee(x + step, fee) >= low {
      y := x + step;
    } else {
      OneMore(k, step);
      y := WalkTo(x + step, step, k - 1, low, high, fee);
    }
  }

  lemma SpeedAtLeastOne(fee: FeeParams, step: real)
    requires fee.rate > 0.0 && step > 0.0
    ensures Speed(fee) > 0.0 && Times(Speed(fee), step) >= step
  {
    hide Times;
    Mono(1.0, Speed(fee), step);
    Unit(step);
  }

  /** Some price has its cost between two given levels. */
  lemma CostBetween(low: real, high: real, fee: FeeParams) returns (y: real)
    requires low < high && 0.0 < high < 1.0 && fee.rate > 0.0
    ensures 0.0 < y < 1.0 && low <= CostWithFee(y, fee) < high
  {
    hide CostWithFee, Speed, Times;
    SpeedAtLeastOne(fee, 1.0);
    var step := SmallerThan(0.5, high - Max(low, 0.0), Speed(fee));
    CostFromZero(step, fee);
    CostAtLeastPrice(step, fee);
    if CostWithFee(step, fee) >= low {
      y := step;
    } else {
      var k := EnoughSteps(low, step);
      y := WalkTo(step, step, k, low, high, fee);
    }
  }

  /** Every unsafe fee has a pair with positive quoted edge that a cheaper fill turns into a loss. */
  lemma UnsafeFeeLoses(fee: FeeParams) returns (up: real, down: real, up': real)
    requires !SafeFee(fee)
    ensures 0.0 < up' < up < 1.0 && 0.0 < down < 1.0 && SpreadNetEdge(up, down, 1.0, fee) > 0.0
    ensures forall size: real, upWins: bool | size > 0.0 ::
              TradePnl(up', size, upWins, fee) + TradePnl(down, size, !upWins, fee) <= 0.0
  {
    up', up := SteepBreaks(fee);
    hide CostWithFee, TradePnl, SpreadNetEdge;
    CostAtLeastPrice(up, fee);
    down := CostBetween(1.0 - CostWithFee(up', fee), 1.0 - CostWithFee(up, fee), fee);
    PairEarns(up, down, 1.0, true, fee);
    forall size: real, upWins: bool | size > 0.0
      ensures TradePnl(up', size, upWins, fee) + TradePnl(down, size, !upWins, fee) <= 0.0
    {
      PairEarns(up', down, size, upWins, fee);
    }
  }

  /**
   * The exact condition: profit is locked in if and only if there is no fee, or the exponent is at
   * most 1, or the rate is so small that the fee never falls faster than the price rises.
   */
  lemma LocksExactly(fee: FeeParams)
    ensures Locks(fee) <==> SafeFee(fee)
  {
    hide TradePnl, SpreadNetEdge, SafeFee;
    if SafeFee(fee) {
      forall up: real, down: real, up': real, down': real, size: real, upWins: bool
        ensures PairPays(up, down, up', down', size, upWins, fee)
      {
        LockedProfit(up, down, up', down', size, upWins, fee);
      }
    } else {
      var up, down, up' := UnsafeFeeLoses(fee);
      assert !PairPays(up, down, up', down, 1.0, true, fee);
    }
  }

  /** A rate of at most 1 is safe at every exponent. */
  lemma LowRateSafe(fee: FeeParams)
    requires fee.rate <= 1.0
    ensures SafeFee(fee)
  {
    hide SafeFee, TradePnl, SpreadNetEdge;
    forall up: real, down: real, up': real, down': real, size: real, upWins: bool
      ensures PairPays(up, down, up', down', size, upWins, fee)
    {
      if 0.0 < up' <= up < 1.0 && 0.0 < down' <= down < 1.0 && size > 0.0 && SpreadNetEdge(up, down, 1.0, fee) > 0.0 {
        LowRatePays(up, down, up', down', size, fee, upWins);
      }
    }
    LocksExactly(fee);
  }
}
