/** What every reservation keeps, and when the spread precheck tells the truth. */
module Sizing {
  import opened Basics
  import opened Settings
  import opened Reserves
  import opened Bankroll
  import DrawdownPause

  /** Every limit that applies to one reservation of `cost` for family `f`, all at once. */
  ghost predicate WithinCaps(b: Bank, f: Family, c: Config, cost: real) {
    var balance, r' := b.equity.balance, AddActive(b.reserve, f, cost);
    && cost <= Share(balance, c.maxPositionUsdFraction)
    && cost <= c.maxPositionUsd
    && cost <= Share(balance, FractionTarget(f, c))
    && EffectiveReserved(r', c) <= balance
    && (ExplicitSleeve(f, c).Some? ==> EffectiveForFamily(r', f, c) <= Share(balance, ExplicitSleeve(f, c).value))
    && (Ceiling(c).Some? ==> r'.Committed() <= Ceiling(c).value)
  }

  /** A positive budget is below every per-trade cap and inside the family sleeve. */
  lemma BudgetWithinCaps(b: Bank, f: Family, c: Config)
    ensures var budget, balance := Budget(b, f, c), b.equity.balance;
            budget > 0.0 ==>
              && budget <= balance - EffectiveReserved(b.reserve, c)
              && budget <= Share(balance, c.maxPositionUsdFraction)
              && budget <= c.maxPositionUsd
              && budget <= Share(balance, FractionTarget(f, c))
              && (ExplicitSleeve(f, c).Some? ==>
                    budget <= Share(balance, ExplicitSleeve(f, c).value) - EffectiveForFamily(b.reserve, f, c))
  {
    hide EffectiveReserved, EffectiveForFamily, FractionTarget, Share;
  }

  lemma AvailableWithinCaps(b: Bank, f: Family, c: Config)
    requires Available(b, f, c) > 0.0
    ensures Available(b, f, c) <= Budget(b, f, c)
    ensures Available(b, f, c) <= b.equity.balance - EffectiveReserved(b.reserve, c)
    ensures Ceiling(c).Some? ==> Available(b, f, c) <= Ceiling(c).value - b.reserve.Committed()
  {
    hide EffectiveReserved, Budget;
  }

  /** Whatever costs no more than the available amount breaks no limit. */
  lemma AffordableWithinCaps(b: Bank, f: Family, c: Config, cost: real)
    requires 0.0 < cost <= Available(b, f, c)
    ensures WithinCaps(b, f, c, cost)
  {
    hide EffectiveReserved, EffectiveForFamily, FractionTarget, Budget, Available, AddActive, Share;
    AvailableWithinCaps(b, f, c);
    BudgetWithinCaps(b, f, c);
    AddActiveShifts(b.reserve, f, c, cost);
    CommittedShift(b.reserve, f, cost);
  }

  lemma CommittedShift(r: Reserve, f: Family, cost: real)
    ensures AddActive(r, f, cost).Committed() == r.Committed() + cost
  {
  }

  lemma AddActiveShifts(r: Reserve, f: Family, c: Config, cost: real)
    ensures var r' := AddActive(r, f, cost);
            && EffectiveReserved(r', c) == EffectiveReserved(r, c) + cost
            && EffectiveForFamily(r', f, c) == EffectiveForFamily(r, f, c) + cost
            && r'.Committed() == r.Committed() + cost
            && r'.Family(f) == r.Family(f) + cost
  {
    hide Share, PendingPolicy;
  }

  // ----- Kelly -----

  /**
   * Past the win-rate gate, the Kelly rule stakes the edge over the price relative to the price's
   * upside, scaled down; without an edge it falls back to the floor.
   */
  lemma KellyMeaning(entry: real, winRate: real, c: Config)
    requires 0.0 < entry < 1.0 && winRate >= c.minWinRateForKelly
    ensures KellyFraction(entry, winRate, c)
         == if winRate > entry then (winRate - entry) / (1.0 - entry) * c.kellyFraction else c.minKellyFloor
  {
    var odds := (1.0 - entry) / entry;
    OddsPositive(entry);
    DivMul(1.0 - entry, entry);
    KellyAlgebra(entry, winRate, odds, (odds * winRate - (1.0 - winRate)) / odds);
  }

  lemma KellyAlgebra(entry: real, p: real, odds: real, full: real)
    requires 0.0 < entry < 1.0 && odds > 0.0 && odds * entry == 1.0 - entry
    requires full == (odds * p - (1.0 - p)) / odds
    ensures full == (p - entry) / (1.0 - entry)
    ensures full > 0.0 <==> p > entry
  {
    DivMul(odds * p - (1.0 - p), odds);
    assert full * odds == odds * p - (1.0 - p);
    calc {
      full * (1.0 - entry);
      full * (odds * entry);
      (full * odds) * entry;
      (odds * p - (1.0 - p)) * entry;
      (odds * entry) * p - (1.0 - p) * entry;
      (1.0 - entry) * p - (1.0 - p) * entry;
      p - entry;
    }
    Quotient(full, 1.0 - entry, p - entry);
  }

  lemma Quotient(x: real, y: real, z: real)
    requires y > 0.0 && x * y == z
    ensures x == z / y && (x > 0.0 <==> z > 0.0)
  {
    if x > 0.0 { MulPos(x, y); } else { MulLe(x, 0.0, y); }
  }

  /**
   * Confidence scales the stake but never lifts it over the family target, and at one half or less
   * nothing is staked.
   */
  lemma PositionFractionCapped(h: History, entry: real, confidence: real, s: Strategy, f: Family, c: Config)
    requires 0.0 < entry < 1.0
    ensures PositionFraction(h, entry, confidence, s, f, c) <= FractionTarget(f, c)
    ensures confidence <= 0.5 ==> PositionFraction(h, entry, confidence, s, f, c) <= 0.0
  {
    hide KellyFraction, WinRate, FractionTarget;
  }

  // ----- One-sided orders -----

  lemma TokensForSound(notional: real, available: real, cap1: real, cap2: real, entry: real, price: real, minBet: real)
    requires PriceOk(entry) && PriceOk(price) && notional <= available
    ensures var tokens := TokensFor(notional, available, cap1, cap2, entry, price, minBet);
            tokens > 0.0 ==>
              && Whole(tokens)
              && Cost(tokens, price) <= available
              && (Cost(tokens, price) <= notional || tokens == Ceil(minBet / entry))
  {
    FloorFits(notional, price);
    CeilBounds(minBet / entry);
    hide Floor, Ceil;
  }

  /** A size that still misses the minimum bet was not raised because the raise would break a cap. */
  lemma TokensForMinBet(notional: real, available: real, cap1: real, cap2: real, entry: real, price: real, minBet: real)
    requires PriceOk(entry) && PriceOk(price)
    ensures var tokens := TokensFor(notional, available, cap1, cap2, entry, price, minBet);
            tokens > 0.0 && Cost(tokens, entry) < minBet ==>
              var raised := Cost(Ceil(minBet / entry), price);
              raised > available || raised > cap1 || raised > cap2
  {
    CeilBounds(minBet / entry);
    RaisedMeetsBet(minBet, entry, -((-(minBet / entry)).Floor));
    hide Floor, Ceil;
  }

  lemma RaisedMeetsBet(minBet: real, entry: real, k: int)
    requires entry > 0.0 && k as real == Ceil(minBet / entry)
    ensures Ceil(minBet / entry) * entry >= minBet
  {
    CeilCovers(minBet, entry, k);
  }

  lemma SingleTokensIs(b: Bank, entry: real, price: real, confidence: real, s: Strategy, f: Family, c: Config)
    returns (notional: real, cap: real)
    requires SingleTokens(b, entry, price, confidence, s, f, c) > 0.0
    ensures PriceOk(entry) && PriceOk(price) && notional <= Available(b, f, c)
    ensures SingleTokens(b, entry, price, confidence, s, f, c)
         == TokensFor(notional, Available(b, f, c), cap, c.maxPositionUsd, entry, price, c.minBetUsd)
  {
    hide Available, PositionFraction, TokensFor, Share;
    var balance := b.equity.balance;
    cap := Share(balance, c.maxPositionUsdFraction);
    var fraction := PositionFraction(b.history, entry, confidence, s, f, c);
    notional := Min(Min(Min(Share(balance, fraction), Available(b, f, c)), cap), c.maxPositionUsd);
    NotionalAffordable(Share(balance, fraction), Available(b, f, c), cap, c.maxPositionUsd);
  }

  lemma SingleTokensSound(b: Bank, entry: real, price: real, confidence: real, s: Strategy, f: Family, c: Config)
    ensures var tokens := SingleTokens(b, entry, price, confidence, s, f, c);
            tokens > 0.0 ==>
              PriceOk(entry) && PriceOk(price) && Whole(tokens) && 0.0 < Cost(tokens, price) <= Available(b, f, c)
  {
    hide Cost, Available, SingleTokens, TokensFor, Floor;
    var tokens := SingleTokens(b, entry, price, confidence, s, f, c);
    if tokens > 0.0 {
      var notional, cap := SingleTokensIs(b, entry, price, confidence, s, f, c);
      TokensForSound(notional, Available(b, f, c), cap, c.maxPositionUsd, entry, price, c.minBetUsd);
      CostPositive(tokens, price);
    }
  }

  lemma NotionalAffordable(kelly: real, available: real, cap1: real, cap2: real)
    ensures Min(Min(Min(kelly, available), cap1), cap2) <= available
  {
  }

  lemma ReserveSingleIs(b: Bank, entry: real, price: real, confidence: real, s: Strategy, f: Family, c: Config,
                        now: nat)
    ensures var (b', tokens) := ReserveSingle(b, entry, price, confidence, s, f, c, now);
            var b1 := b.(pause := b'.pause);
            if tokens > 0.0 then
              && tokens == SingleTokens(b1, entry, price, confidence, s, f, c)
              && b' == b1.(reserve := AddActive(b.reserve, f, Cost(tokens, price)))
            else tokens == 0.0 && b' == b1
  {
    hide Cost, SingleTokens, AddActive;
  }

  /** Every granted one-sided reservation is a whole token count inside every cap, minimum-bet raise included. */
  lemma ReserveSingleWithinCaps(b: Bank, entry: real, price: real, confidence: real, s: Strategy, f: Family, c: Config,
                                now: nat)
    ensures var (b', tokens) := ReserveSingle(b, entry, price, confidence, s, f, c, now);
            if tokens > 0.0 then
              && PriceOk(entry) && PriceOk(price) && Whole(tokens) && Cost(tokens, price) > 0.0
              && WithinCaps(b, f, c, Cost(tokens, price))
              && b' == b.(reserve := AddActive(b.reserve, f, Cost(tokens, price)), pause := b'.pause)
            else tokens == 0.0 && b' == b.(pause := b'.pause)
  {
    hide Cost, ReserveSingle, SingleTokens, Available, WithinCaps, AddActive, Floor;
    ReserveSingleIs(b, entry, price, confidence, s, f, c, now);
    var (b', tokens) := ReserveSingle(b, entry, price, confidence, s, f, c, now);
    if tokens > 0.0 {
      var b1 := b.(pause := b'.pause);
      SingleTokensSound(b1, entry, price, confidence, s, f, c);
      AffordableWithinCaps(b1, f, c, Cost(tokens, price));
      CapsIgnorePause(b, b1.pause, f, c, Cost(tokens, price));
    }
  }

  lemma CapsIgnorePause(b: Bank, pause: DrawdownPause.Pause, f: Family, c: Config, cost: real)
    ensures WithinCaps(b.(pause := pause), f, c, cost) <==> WithinCaps(b, f, c, cost)
  {
  }

  // ----- Two-sided orders -----

  lemma PairUnitsSound(b: Bank, up: real, down: real, f: Family, c: Config)
    ensures var units := PairUnits(b, up, down, f, c);
            units > 0.0 ==>
              PriceOk(up) && PriceOk(down) && Whole(units) && 0.0 < Cost(units, up + down) <= Available(b, f, c)
  {
    hide Available;
    var units := PairUnits(b, up, down, f, c);
    if units > 0.0 {
      FloorFits(Available(b, f, c), up + down);
      CostPositive(units, up + down);
    }
  }

  lemma ReserveSpreadIs(b: Bank, up: real, down: real, f: Family, c: Config, now: nat)
    ensures var (b', units) := ReserveSpread(b, up, down, f, c, now);
            var b1 := b.(pause := b'.pause);
            if units > 0.0 then
              && units == PairUnits(b1, up, down, f, c)
              && b' == b1.(reserve := AddActive(b.reserve, f, Cost(units, up + down)))
            else units == 0.0 && b' == b1
  {
    hide Cost, PairUnits, AddActive;
  }

  lemma ReserveSpreadWithinCaps(b: Bank, up: real, down: real, f: Family, c: Config, now: nat)
    ensures var (b', units) := ReserveSpread(b, up, down, f, c, now);
            if units > 0.0 then
              && PriceOk(up) && PriceOk(down) && Whole(units) && Cost(units, up + down) > 0.0
              && WithinCaps(b, f, c, Cost(units, up + down))
              && b' == b.(reserve := AddActive(b.reserve, f, Cost(units, up + down)), pause := b'.pause)
            else units == 0.0 && b' == b.(pause := b'.pause)
  {
    hide Cost, ReserveSpread, PairUnits, Available, WithinCaps, AddActive, Floor;
    ReserveSpreadIs(b, up, down, f, c, now);
    var (b', units) := ReserveSpread(b, up, down, f, c, now);
    if units > 0.0 {
      var b1 := b.(pause := b'.pause);
      PairUnitsSound(b1, up, down, f, c);
      AffordableWithinCaps(b1, f, c, Cost(units, up + down));
      CapsIgnorePause(b, b1.pause, f, c, Cost(units, up + down));
    }
  }
}
