/** The taker-fee polynomial and what it means for a two-leg spread. */
module Fees {
  import opened Basics
  import opened Settings

  datatype FeeParams = FeeParams(rate: real, exponent: nat)

  /** What a market window says about its own fees; `schedule` is its parsed fee-schedule document. */
  datatype FeeProfile = FeeProfile(feesEnabled: Option<bool>, schedule: Option<FeeSchedule>, crypto: bool)

  datatype FeeSchedule = FeeSchedule(rate: Option<real>, exponent: Option<nat>)

  const CRYPTO_FEE_CHANGEOVER_MS: nat := 1_774_828_800_000

  function CryptoFeeParams(timestamp: nat): FeeParams {
    if timestamp >= CRYPTO_FEE_CHANGEOVER_MS then FeeParams(0.07, 1) else FeeParams(0.25, 2)
  }

  function ResolveFeeParams(c: Config, profile: FeeProfile, timestamp: nat): FeeParams {
    if c.takerFeeOverride then FeeParams(c.takerFeeRate, c.takerFeeExponent)
    else if profile.feesEnabled == Some(false) then FeeParams(0.0, 1)
    else if profile.schedule.Some? && profile.schedule.value.rate.Some? then
      FeeParams(profile.schedule.value.rate.value, profile.schedule.value.exponent.GetOr(1))
    else if profile.crypto then CryptoFeeParams(timestamp)
    else FeeParams(c.takerFeeRate, c.takerFeeExponent)
  }

  function Pow(x: real, n: nat): real {
    if n == 0 then 1.0 else x * Pow(x, n - 1)
  }

  /** An exponent that does not fit in an `i32` is replaced by 2. */
  function PowerUsed(exponent: nat): nat {
    if exponent <= 0x7FFF_FFFF then exponent else 2
  }

  function Variance(price: real): real {
    price * (1.0 - price)
  }

  function TakerFee(price: real, shares: real, fee: FeeParams): real {
    if price <= 0.0 || price >= 1.0 || shares <= 0.0 || fee.rate <= 0.0 then 0.0
    else shares * price * fee.rate * Pow(Variance(price), PowerUsed(fee.exponent))
  }

  function SpreadNetEdge(up: real, down: real, shares: real, fee: FeeParams): real {
    if shares <= 0.0 then 0.0
    else
      var gross := shares * (1.0 - up - down);
      var fees := TakerFee(up, shares, fee) + TakerFee(down, shares, fee);
      gross - fees
  }

  // ----- The polynomial is monotone enough -----

  lemma {:induction false} PowBounds(x: real, n: nat)
    requires 0.0 <= x <= 1.0
    ensures 0.0 <= Pow(x, n) <= 1.0
    ensures n >= 1 ==> Pow(x, n) <= x
  {
    if n > 0 {
      PowBounds(x, n - 1);
      ScaleDown(x, Pow(x, n - 1));
    }
  }

  lemma ScaleDown(x: real, k: real)
    requires 0.0 <= x && 0.0 <= k <= 1.0
    ensures 0.0 <= x * k <= x
  {
    MulLe(k, 1.0, x);
  }

  lemma {:induction false} PowMonotone(y: real, x: real, n: nat)
    requires 0.0 <= y <= x <= 1.0
    ensures Pow(y, n) <= Pow(x, n)
  {
    if n > 0 {
      PowMonotone(y, x, n - 1);
      PowBounds(y, n - 1);
      MulBoth(y, x, Pow(y, n - 1), Pow(x, n - 1));
    }
  }

  lemma MulBoth(a: real, b: real, c: real, d: real)
    requires 0.0 <= a <= b && 0.0 <= c <= d
    ensures a * c <= b * d
  {
    MulLe(a, b, c);
    MulLe(c, d, b);
  }

  /** On [0, 1/4], where p(1 - p) lives, every power is 1-Lipschitz. */
  lemma {:induction false} PowLipschitz(y: real, x: real, n: nat)
    requires 0.0 <= y <= x <= 0.25
    ensures Pow(x, n) - Pow(y, n) <= x - y
  {
    if n == 1 {
      PowOne(x);
      PowOne(y);
    } else if n >= 2 {
      PowLipschitz(y, x, n - 1);
      PowBounds(y, n - 1);
      LipschitzStep(y, x, Pow(y, n - 1), Pow(x, n - 1), Pow(y, n), Pow(x, n));
    }
  }

  lemma PowOne(x: real)
    ensures Pow(x, 1) == x
  {
    assert Pow(x, 1) == x * Pow(x, 0);
  }

  lemma LipschitzStep(y: real, x: real, k: real, h: real, k': real, h': real)
    requires 0.0 <= y <= x <= 0.25
    requires 0.0 <= k <= y && h - k <= x - y
    requires k' == y * k && h' == x * h
    ensures h' - k' <= x - y
  {
    var d := x - y;
    MulLe(h - k, d, x);
    MulLe(x + k, 1.0, d);
    assert x * h - y * k == (h - k) * x + d * k;
  }

  lemma VarianceBounds(p: real)
    requires 0.0 < p < 1.0
    ensures 0.0 < Variance(p) <= 0.25
  {
    MulPos(p, 1.0 - p);
    assert 0.25 - p * (1.0 - p) == (p - 0.5) * (p - 0.5);
  }

  /** Price paid plus fee, per share. */
  function CostWithFee(price: real, fee: FeeParams): real {
    price + TakerFee(price, 1.0, fee)
  }

  /** Price times the n-th power of the variance. */
  function Weighted(p: real, n: nat): real {
    p * Pow(Variance(p), n)
  }

  /** The weighted power falls by less than the price rises. */
  lemma WeightedPowerSlope(p: real, q: real, n: nat)
    requires 0.0 < p < q < 1.0
    ensures Weighted(p, n) - Weighted(q, n) < q - p
  {
    hide Variance, Pow;
    VarianceBounds(p);
    VarianceBounds(q);
    VarianceSlope(p, q);
    PowerSlope(p, q, Variance(p), Variance(q), n);
  }

  lemma PowerSlope(p: real, q: real, vp: real, vq: real, n: nat)
    requires 0.0 < p < q < 1.0
    requires 0.0 < vp <= 0.25 && 0.0 < vq <= 0.25 && vp - vq < q - p
    ensures p * Pow(vp, n) - q * Pow(vq, n) < q - p
  {
    hide Pow;
    PowBounds(vq, n);
    PowerGap(vp, vq, n);
    WeightedSlope(p, q, Pow(vp, n), Pow(vq, n), q - p);
  }

  lemma PowerGap(vp: real, vq: real, n: nat)
    requires 0.0 < vp <= 0.25 && 0.0 < vq <= 0.25
    ensures Pow(vp, n) - Pow(vq, n) <= Max(vp - vq, 0.0)
  {
    if vp <= vq {
      PowMonotone(vp, vq, n);
    } else {
      PowLipschitz(vq, vp, n);
    }
  }

  lemma WeightedSlope(p: real, q: real, kp: real, kq: real, d: real)
    requires 0.0 < p < q < 1.0 && 0.0 <= kq && kp - kq < d == q - p
    ensures p * kp - q * kq < d
  {
    var k := kp - kq;
    calc {
      kp * p - kq * q;
    <= { MulLe(p, q, kq); }
      kp * p - kq * p;
    == { MulSub(kp, kq, p); }
      k * p;
    <= { MulLe(k, d, p); }
      d * p;
    <  { MulLt(p, 1.0, d); }
      d;
    }
  }

  lemma VarianceSlope(p: real, q: real)
    requires 0.0 < p < q < 1.0
    ensures Variance(p) - Variance(q) < q - p
  {
    MulLt(p + q - 1.0, 1.0, q - p);
    assert p * (1.0 - p) - q * (1.0 - q) == (p + q - 1.0) * (q - p);
  }

  lemma FeePerShare(p: real, fee: FeeParams)
    requires 0.0 < p < 1.0 && fee.rate > 0.0
    ensures TakerFee(p, 1.0, fee) == Weighted(p, PowerUsed(fee.exponent)) * fee.rate
  {
    Reorder(p, fee.rate, Pow(Variance(p), PowerUsed(fee.exponent)));
  }

  lemma Reorder(a: real, b: real, c: real)
    ensures 1.0 * a * b * c == (a * c) * b
  {
  }

  /** For every exponent and every rate up to 1, paying less per share never costs more after fees. */
  lemma CostWithFeeIncreasing(p: real, q: real, fee: FeeParams)
    requires 0.0 < p < q < 1.0
    requires fee.rate <= 1.0
    ensures CostWithFee(p, fee) < CostWithFee(q, fee)
  {
    if fee.rate > 0.0 {
      FeeSlope(p, q, fee);
    }
  }

  lemma FeeSlope(p: real, q: real, fee: FeeParams)
    requires 0.0 < p < q < 1.0
    requires 0.0 < fee.rate <= 1.0
    ensures TakerFee(p, 1.0, fee) - TakerFee(q, 1.0, fee) < q - p
  {
    hide Weighted, TakerFee;
    var n := PowerUsed(fee.exponent);
    WeightedPowerSlope(p, q, n);
    FeePerShare(p, fee);
    FeePerShare(q, fee);
    ScaledSlope(Weighted(p, n), Weighted(q, n), fee.rate, q - p, TakerFee(p, 1.0, fee), TakerFee(q, 1.0, fee));
  }

  lemma ScaledSlope(hp: real, hq: real, rate: real, gap: real, fp: real, fq: real)
    requires hp - hq < gap && 0.0 < rate <= 1.0 && 0.0 < gap
    requires fp == hp * rate && fq == hq * rate
    ensures fp - fq < gap
  {
    if hp > hq {
      var d := hp - hq;
      MulLe(rate, 1.0, d);
      assert d * rate == fp - fq;
    } else {
      MulLe(hp, hq, rate);
      assert fp <= fq;
    }
  }

  /** The bound on the rate is exact: above 1, some cheaper price costs more after fees. */
  lemma CostWithFeeNotIncreasing(rate: real) returns (p: real, q: real)
    requires rate > 1.0
    ensures 0.0 < p < q < 1.0
    ensures CostWithFee(q, FeeParams(rate, 1)) < CostWithFee(p, FeeParams(rate, 1))
  {
    hide Weighted, TakerFee;
    var fee := FeeParams(rate, 1);
    var e := (rate - 1.0) / (12.0 * rate);
    DivMul(rate - 1.0, 12.0 * rate);
    SmallStep(e, rate);
    p, q := 1.0 - 2.0 * e, 1.0 - e;
    FeePerShare(p, fee);
    FeePerShare(q, fee);
    var z, s := CubicGap(e);
    SteepFactor(e, rate, z, s);
    ScaleGap(Weighted(p, 1), Weighted(q, 1), e, s, rate,
             TakerFee(p, 1.0, fee), TakerFee(q, 1.0, fee));
  }

  lemma SmallStep(e: real, rate: real)
    requires rate > 1.0 && e * (12.0 * rate) == rate - 1.0
    ensures 0.0 < e < 0.25
  {
    if e >= 0.25 { MulLe(0.25, e, 12.0 * rate); }
    if e <= 0.0 { MulLe(e, 0.0, 12.0 * rate); }
  }

  lemma CubicGap(e: real) returns (z: real, s: real)
    requires e > 0.0
    ensures z > 0.0 && s == 1.0 - 6.0 * e + 7.0 * z
    ensures Weighted(1.0 - 2.0 * e, 1) - Weighted(1.0 - e, 1) == e * s
  {
    hide Weighted;
    z := e * e;
    s := 1.0 - 6.0 * e + 7.0 * z;
    MulPos(e, e);
    WeightedOne(1.0 - 2.0 * e);
    WeightedOne(1.0 - e);
    Cubics(e, z);
  }

  lemma WeightedOne(p: real)
    ensures Weighted(p, 1) == p * (p * (1.0 - p))
  {
    PowOne(Variance(p));
  }

  lemma Cubics(e: real, z: real)
    requires z == e * e
    ensures (1.0 - 2.0 * e) * ((1.0 - 2.0 * e) * (1.0 - (1.0 - 2.0 * e))) == 2.0 * e - 8.0 * z + 8.0 * (e * z)
    ensures (1.0 - e) * ((1.0 - e) * (1.0 - (1.0 - e))) == e - 2.0 * z + e * z
    ensures e * (1.0 - 6.0 * e + 7.0 * z) == e - 6.0 * z + 7.0 * (e * z)
  {
  }

  lemma SteepFactor(e: real, rate: real, z: real, s: real)
    requires rate > 1.0 && e * (12.0 * rate) == rate - 1.0 && z > 0.0
    requires s == 1.0 - 6.0 * e + 7.0 * z
    ensures rate * s > 1.0
  {
    MulPos(rate, z);
    calc {
      rate * s;
    ==
      rate - 6.0 * (e * rate) + 7.0 * (rate * z);
    >
      rate - 6.0 * (e * rate);
    == { assert 12.0 * (e * rate) == rate - 1.0; }
      rate - 0.5 * (rate - 1.0);
    >
      1.0;
    }
  }

  lemma ScaleGap(hp: real, hq: real, e: real, s: real, rate: real, fp: real, fq: real)
    requires hp - hq == e * s && rate * s > 1.0 && e > 0.0
    requires fp == hp * rate && fq == hq * rate
    ensures fp - fq > e
  {
    MulLt(1.0, rate * s, e);
    assert (hp - hq) * rate == (rate * s) * e;
  }

  // ----- Spread edge -----

  lemma FeeNonNegative(price: real, shares: real, fee: FeeParams)
    ensures TakerFee(price, shares, fee) >= 0.0
  {
    if 0.0 < price < 1.0 && shares > 0.0 && fee.rate > 0.0 {
      VarianceBounds(price);
      PowBounds(Variance(price), PowerUsed(fee.exponent));
      MulPos(shares, price);
      MulPos(shares * price, fee.rate);
      MulLe(0.0, shares * price * fee.rate, Pow(Variance(price), PowerUsed(fee.exponent)));
    }
  }

  lemma FeeLinear(price: real, shares: real, fee: FeeParams)
    requires shares > 0.0
    ensures TakerFee(price, shares, fee) == shares * TakerFee(price, 1.0, fee)
  {
    if 0.0 < price < 1.0 && fee.rate > 0.0 {
      Regroup(shares, price, fee.rate, Pow(Variance(price), PowerUsed(fee.exponent)));
    }
  }

  lemma Regroup(s: real, a: real, b: real, c: real)
    ensures s * a * b * c == s * (1.0 * a * b * c)
  {
  }

  lemma NetEdgeLinear(up: real, down: real, shares: real, fee: FeeParams)
    requires shares > 0.0
    ensures SpreadNetEdge(up, down, shares, fee) == shares * SpreadNetEdge(up, down, 1.0, fee)
  {
    hide TakerFee;
    var edge := SpreadNetEdge(up, down, shares, fee);
    var unit := SpreadNetEdge(up, down, 1.0, fee);
    FeeLinear(up, shares, fee);
    FeeLinear(down, shares, fee);
    Distribute(shares, 1.0 - up - down, TakerFee(up, 1.0, fee), TakerFee(down, 1.0, fee),
               TakerFee(up, shares, fee), TakerFee(down, shares, fee), unit, edge);
  }

  lemma Distribute(s: real, g: real, a: real, b: real, a': real, b': real, unit: real, edge: real)
    requires a' == s * a && b' == s * b
    requires unit == g - (a + b) && edge == s * g - (a' + b')
    ensures edge == s * unit
  {
  }

  /** Price improvement on either leg never lowers the per-share edge. */
  lemma NetEdgeImproves(up: real, down: real, up': real, down': real, fee: FeeParams)
    requires 0.0 < up' <= up < 1.0 && 0.0 < down' <= down < 1.0
    requires fee.rate <= 1.0
    ensures SpreadNetEdge(up, down, 1.0, fee) <= SpreadNetEdge(up', down', 1.0, fee)
  {
    if up' < up { CostWithFeeIncreasing(up', up, fee); }
    if down' < down { CostWithFeeIncreasing(down', down, fee); }
  }

  /** Profit of one trade at settlement: payout less cost less taker fee. */
  function TradePnl(entry: real, size: real, won: bool, fee: FeeParams): real {
    (if won then size else 0.0) - entry * size - TakerFee(entry, size, fee)
  }

  /** At rates up to 1 a pair quoted with positive edge and filled at or below its quotes pays whoever wins. */
  lemma LowRatePays(up: real, down: real, up': real, down': real, size: real, fee: FeeParams, upWins: bool)
    requires 0.0 < up' <= up < 1.0 && 0.0 < down' <= down < 1.0
    requires fee.rate <= 1.0 && size > 0.0
    requires SpreadNetEdge(up, down, 1.0, fee) > 0.0
    ensures TradePnl(up', size, upWins, fee) + TradePnl(down', size, !upWins, fee) > 0.0
  {
    NetEdgeImproves(up, down, up', down', fee);
    NetEdgeLinear(up', down', size, fee);
    MulPos(size, SpreadNetEdge(up', down', 1.0, fee));
    assert TradePnl(up', size, upWins, fee) + TradePnl(down', size, !upWins, fee)
        == SpreadNetEdge(up', down', size, fee);
  }

  /** Fee parameters stay at or below rate 1 whenever the configured and the scheduled rate do. */
  lemma ResolvedRateBounded(c: Config, profile: FeeProfile, timestamp: nat)
    requires c.takerFeeRate <= 1.0
    requires profile.schedule.Some? && profile.schedule.value.rate.Some? ==> profile.schedule.value.rate.value <= 1.0
    ensures ResolveFeeParams(c, profile, timestamp).rate <= 1.0
  {
  }
}
