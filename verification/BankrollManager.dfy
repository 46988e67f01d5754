/** The bankroll as the mutable object the bot holds, proved to behave as the value in `Bankroll`. */
module BankrollManager {
  import opened Basics
  import opened Settings
  import opened Reserves
  import opened Bankroll
  import Drawdown
  import DrawdownPause

  function Lookup(m: map<Family, real>, f: Family): real {
    if f in m then m[f] else 0.0
  }

  /** A family map with absent entries read as zero. */
  function Spread(m: map<Family, real>): PerFamily {
    PerFamily(Lookup(m, LatencyArb), Lookup(m, SpreadCapture), Lookup(m, CalmPersistence))
  }

  function Plus(p: PerFamily, q: PerFamily): PerFamily {
    PerFamily(p.latency + q.latency, p.spread + q.spread, p.calm + q.calm)
  }

  lemma SpreadLookup(m: map<Family, real>, f: Family)
    ensures Lookup(m, f) == Spread(m).Get(f)
  {
  }

  lemma SpreadUpdate(m: map<Family, real>, f: Family, x: real)
    ensures Spread(m[f := x]) == Spread(m).Set(f, x)
  {
  }

  /** The reserve fields of the manager, as one value. */
  datatype Buckets = Buckets(active: real, pending: real, raw: real, activeBy: PerFamily, pendingBy: PerFamily,
                             rawBy: PerFamily)

  /** Totals are the sums of the family buckets, mirrors are active plus pending, nothing is negative. */
  ghost predicate Consistent(b: Buckets) {
    && b.activeBy.NonNegative() && b.pendingBy.NonNegative()
    && b.active == b.activeBy.Sum() && b.pending == b.pendingBy.Sum()
    && b.raw == b.active + b.pending
    && b.rawBy == Plus(b.activeBy, b.pendingBy)
  }

  predicate Apart(x: real, y: real) {
    Abs(x - y) > 0.000000001
  }

  /** A legacy caller changed the mirror without the split buckets. */
  predicate Overridden(b: Buckets) {
    Apart(b.raw, b.active + b.pending)
  }

  predicate OverriddenFor(b: Buckets, f: Family) {
    Overridden(b) || Apart(b.rawBy.Get(f), b.activeBy.Get(f) + b.pendingBy.Get(f))
  }

  /** The manual-override branches are unreachable from a consistent state. */
  lemma ConsistentNotOverridden(b: Buckets, f: Family)
    requires Consistent(b)
    ensures !Overridden(b) && !OverriddenFor(b, f)
  {
  }

  class Manager {
    const startingBalance: real
    const kellyWindow: nat
    var currentBalance: real
    var highWaterMark: real
    var peakDrawdownPct: real
    var totalWins: nat
    var totalLosses: nat
    var totalTrades: nat
    var activeReserved: real
    var pendingReserved: real
    var reserved: real
    var activeByFamily: map<Family, real>
    var pendingByFamily: map<Family, real>
    var reservedByFamily: map<Family, real>
    var pauseUntil: nat
    var pauseArmed: bool
    var totalFees: real
    var strategyStats: map<Strategy, Tally>
    var recentResults: seq<TradeOutcome>

    function BucketsView(): Buckets
      reads this
    {
      Buckets(activeReserved, pendingReserved, reserved, Spread(activeByFamily), Spread(pendingByFamily),
              Spread(reservedByFamily))
    }

    ghost function ReserveView(): Reserve
      reads this
    {
      Reserve(Spread(activeByFamily), Spread(pendingByFamily))
    }

    /** What the fields mean. */
    ghost function View(): Bank
      reads this
    {
      Bank(startingBalance,
           Drawdown.Equity(currentBalance, highWaterMark, peakDrawdownPct),
           ReserveView(),
           DrawdownPause.Pause(pauseUntil, pauseArmed),
           History(strategyStats, recentResults, totalWins, totalLosses, totalTrades),
           totalFees)
    }

    ghost predicate Valid()
      reads this
    {
      Consistent(BucketsView())
    }

    constructor (starting: real, current: real, window: nat)
      ensures Valid() && View() == Open(starting, current) && kellyWindow == window
    {
      startingBalance, kellyWindow := starting, window;
      currentBalance := current;
      highWaterMark := Max(starting, current);
      peakDrawdownPct := 0.0;
      totalWins, totalLosses, totalTrades := 0, 0, 0;
      activeReserved, pendingReserved, reserved := 0.0, 0.0, 0.0;
      activeByFamily, pendingByFamily, reservedByFamily := map[], map[], map[];
      pauseUntil, pauseArmed := 0, true;
      totalFees := 0.0;
      strategyStats, recentResults := map[], [];
      new;
      FreshView(current);
    }

    lemma FreshView(current: real)
      requires currentBalance == current && highWaterMark == Max(startingBalance, current) && peakDrawdownPct == 0.0
      requires totalWins == 0 && totalLosses == 0 && totalTrades == 0
      requires activeReserved == 0.0 && pendingReserved == 0.0 && reserved == 0.0
      requires activeByFamily == map[] && pendingByFamily == map[] && reservedByFamily == map[]
      requires pauseUntil == 0 && pauseArmed && totalFees == 0.0 && strategyStats == map[] && recentResults == []
      ensures Valid() && View() == Open(startingBalance, current)
    {
      hide Spread, Consistent;
      EmptyBuckets();
    }

    // ----- Bucket helpers -----

    method SyncRawReservedTotals()
      modifies `reserved, `reservedByFamily
      ensures reserved == activeReserved + pendingReserved
      ensures Spread(reservedByFamily) == Plus(Spread(activeByFamily), Spread(pendingByFamily))
    {
      reserved := activeReserved + pendingReserved;
      reservedByFamily := map[
        LatencyArb := Lookup(activeByFamily, LatencyArb) + Lookup(pendingByFamily, LatencyArb),
        SpreadCapture := Lookup(activeByFamily, SpreadCapture) + Lookup(pendingByFamily, SpreadCapture),
        CalmPersistence := Lookup(activeByFamily, CalmPersistence) + Lookup(pendingByFamily, CalmPersistence)];
    }

    method AddReserved(f: Family, amount: real)
      requires Valid() && amount >= 0.0
      modifies `activeReserved, `activeByFamily, `reserved, `reservedByFamily
      ensures Valid() && ReserveView() == AddActive(old(ReserveView()), f, amount)
    {
      hide Spread, Lookup, Consistent, AddActive, Plus, PerFamily.Get, PerFamily.Set;
      ghost var b := BucketsView();
      SpreadLookup(activeByFamily, f);
      SpreadUpdate(activeByFamily, f, Lookup(activeByFamily, f) + amount);
      activeReserved := activeReserved + amount;
      activeByFamily := activeByFamily[f := Lookup(activeByFamily, f) + amount];
      SyncRawReservedTotals();
      AddIsSound(b, BucketsView(), f, amount);
    }

    method ConsumeFamilyActive(amount: real, f: Family) returns (released: real)
      modifies `activeReserved, `activeByFamily
      ensures released == Min(amount, old(Spread(activeByFamily)).Get(f))
      ensures released <= 0.0 ==> activeReserved == old(activeReserved) && activeByFamily == old(activeByFamily)
      ensures released > 0.0 ==>
                && activeReserved == Max(old(activeReserved) - released, 0.0)
                && Spread(activeByFamily)
                   == old(Spread(activeByFamily)).Set(f, Max(old(Spread(activeByFamily)).Get(f) - released, 0.0))
    {
      hide Spread;
      SpreadLookup(activeByFamily, f);
      var current := Lookup(activeByFamily, f);
      released := Min(amount, current);
      if released > 0.0 {
        activeReserved := Max(activeReserved - released, 0.0);
        if f in activeByFamily {
          SpreadUpdate(activeByFamily, f, Max(activeByFamily[f] - released, 0.0));
          activeByFamily := activeByFamily[f := Max(activeByFamily[f] - released, 0.0)];
        }
      }
    }

    method ConsumeFamilyPending(amount: real, f: Family) returns (released: real)
      modifies `pendingReserved, `pendingByFamily
      ensures released == Min(amount, old(Spread(pendingByFamily)).Get(f))
      ensures released <= 0.0 ==> pendingReserved == old(pendingReserved) && pendingByFamily == old(pendingByFamily)
      ensures released > 0.0 ==>
                && pendingReserved == Max(old(pendingReserved) - released, 0.0)
                && Spread(pendingByFamily)
                   == old(Spread(pendingByFamily)).Set(f, Max(old(Spread(pendingByFamily)).Get(f) - released, 0.0))
    {
      hide Spread;
      SpreadLookup(pendingByFamily, f);
      var current := Lookup(pendingByFamily, f);
      released := Min(amount, current);
      if released > 0.0 {
        pendingReserved := Max(pendingReserved - released, 0.0);
        if f in pendingByFamily {
          SpreadUpdate(pendingByFamily, f, Max(pendingByFamily[f] - released, 0.0));
          pendingByFamily := pendingByFamily[f := Max(pendingByFamily[f] - released, 0.0)];
        }
      }
    }

    /** From a valid state this is `Release`; after an outside change to the mirror only the mirror gives way. */
    method ReleaseReservedForFamily(amount: real, f: Family)
      requires Valid() || OverriddenFor(BucketsView(), f)
      modifies `activeReserved, `activeByFamily, `pendingReserved, `pendingByFamily, `reserved, `reservedByFamily
      ensures old(Valid()) ==> Valid() && ReserveView() == Release(old(ReserveView()), f, amount)
      ensures old(OverriddenFor(BucketsView(), f)) ==>
                && ReserveView() == old(ReserveView()) && reserved == Max(old(reserved) - amount, 0.0)
                && (f in old(reservedByFamily) ==>
                      && f in reservedByFamily
                      && reservedByFamily[f] == Max(old(reservedByFamily[f]) - amount, 0.0))
    {
      hide Spread, Consistent, OverriddenFor, Release;
      ghost var b := BucketsView();
      if Consistent(b) { ConsistentNotOverridden(b, f); }
      if OverriddenFor(BucketsView(), f) {
        reserved := Max(reserved - amount, 0.0);
        if f in reservedByFamily {
          reservedByFamily := reservedByFamily[f := Max(reservedByFamily[f] - amount, 0.0)];
        }
      } else {
        var activeReleased := ConsumeFamilyActive(amount, f);
        var remaining := Max(amount - activeReleased, 0.0);
        if remaining > 0.0 {
          var _ := ConsumeFamilyPending(remaining, f);
        }
        SyncRawReservedTotals();
        ReleaseIsSound(b, BucketsView(), f, amount);
      }
    }

    /** Drain one kind of bucket family by family in the fixed order; returns the unmet amount. */
    method ConsumeAcrossFamilies(amount: real, fromActive: bool) returns (remaining: real)
      requires Spread(activeByFamily).NonNegative() && Spread(pendingByFamily).NonNegative()
      requires activeReserved == Spread(activeByFamily).Sum() && pendingReserved == Spread(pendingByFamily).Sum()
      modifies `activeReserved, `activeByFamily, `pendingReserved, `pendingByFamily
      ensures Spread(activeByFamily).NonNegative() && Spread(pendingByFamily).NonNegative()
      ensures activeReserved == Spread(activeByFamily).Sum() && pendingReserved == Spread(pendingByFamily).Sum()
      ensures fromActive ==>
                && (Spread(activeByFamily), remaining) == Drain(old(Spread(activeByFamily)), amount)
                && pendingByFamily == old(pendingByFamily)
      ensures !fromActive ==>
                && (Spread(pendingByFamily), remaining) == Drain(old(Spread(pendingByFamily)), amount)
                && activeByFamily == old(activeByFamily)
    {
      hide Spread, Drain, DrainFirst;
      remaining := Max(amount, 0.0);
      ghost var p0 := if fromActive then Spread(activeByFamily) else Spread(pendingByFamily);
      var i := 0;
      DrainFirstStarts(p0, amount);
      while i < 3 && remaining > 0.0
        invariant 0 <= i <= 3 && remaining >= 0.0
        invariant Spread(activeByFamily).NonNegative() && Spread(pendingByFamily).NonNegative()
        invariant activeReserved == Spread(activeByFamily).Sum() && pendingReserved == Spread(pendingByFamily).Sum()
        invariant fromActive ==> pendingByFamily == old(pendingByFamily)
        invariant !fromActive ==> activeByFamily == old(activeByFamily)
        invariant (if fromActive then Spread(activeByFamily) else Spread(pendingByFamily), remaining)
                  == DrainFirst(p0, amount, i)
      {
        ghost var before := if fromActive then Spread(activeByFamily) else Spread(pendingByFamily);
        var f := FAMILIES[i];
        DrainFirstStep(p0, amount, i, before, remaining, f);
        var released;
        if fromActive {
          released := ConsumeFamilyActive(remaining, f);
        } else {
          released := ConsumeFamilyPending(remaining, f);
        }
        remaining := Max(remaining - released, 0.0);
        i := i + 1;
      }
      DrainFirstDone(p0, amount, i);
      DrainFirstAll(p0, amount);
    }

    /** Family-less release: every active bucket before any pending one. */
    method ReleaseReserved(amount: real)
      requires Valid() || Overridden(BucketsView())
      modifies `activeReserved, `activeByFamily, `pendingReserved, `pendingByFamily, `reserved, `reservedByFamily
      ensures old(Valid()) ==> Valid() && ReserveView() == ReleaseAny(old(ReserveView()), amount)
      ensures old(Overridden(BucketsView())) ==>
              ReserveView() == old(ReserveView()) && reserved == Max(old(reserved) - amount, 0.0)
    {
      hide Spread, Drain;
      if Overridden(BucketsView()) {
        reserved := Max(reserved - amount, 0.0);
      } else {
        var remaining := ConsumeAcrossFamilies(amount, true);
        if remaining > 0.0 {
          var _ := ConsumeAcrossFamilies(remaining, false);
        } else {
          DrainNothing(Spread(pendingByFamily), remaining);
        }
        SyncRawReservedTotals();
      }
    }

    method TransitionFamilyReserveToPending(amount: real, f: Family)
      requires Valid() || OverriddenFor(BucketsView(), f)
      modifies `activeReserved, `activeByFamily, `pendingReserved, `pendingByFamily, `reserved, `reservedByFamily
      ensures old(Valid()) ==> Valid() && ReserveView() == Transition(old(ReserveView()), f, amount)
      ensures old(OverriddenFor(BucketsView(), f)) ==> BucketsView() == old(BucketsView())
    {
      hide Spread, Consistent, OverriddenFor, Transition;
      ghost var b := BucketsView();
      if Consistent(b) { ConsistentNotOverridden(b, f); }
      if !OverriddenFor(BucketsView(), f) {
        var moved := ConsumeFamilyActive(amount, f);
        if moved > 0.0 {
          pendingReserved := pendingReserved + moved;
          SpreadLookup(pendingByFamily, f);
          SpreadUpdate(pendingByFamily, f, Lookup(pendingByFamily, f) + moved);
          pendingByFamily := pendingByFamily[f := Lookup(pendingByFamily, f) + moved];
          SyncRawReservedTotals();
        }
        TransitionIsSound(b, BucketsView(), f, amount);
      }
    }

    /** Rebuild reserve state from the unresolved trades, one row at a time. */
    method HydrateUnresolved(exposures: seq<Exposure>, now: nat)
      requires Valid()
      requires forall i | 0 <= i < |exposures| :: Cost(exposures[i].size, exposures[i].entry) >= 0.0
      modifies `activeReserved, `activeByFamily, `pendingReserved, `pendingByFamily, `reserved, `reservedByFamily
      ensures Valid() && ReserveView() == HydrateAll(old(ReserveView()), exposures, now)
    {
      hide Spread, Cost;
      ghost var r0 := ReserveView();
      for i := 0 to |exposures|
        invariant Valid() && ReserveView() == HydrateAll(r0, exposures[..i], now)
      {
        assert exposures[..i + 1][..i] == exposures[..i];
        HydrateTradeReserve(exposures[i], now);
      }
      assert exposures[..|exposures|] == exposures;
    }

    method HydrateTradeReserve(x: Exposure, now: nat)
      requires Valid() && Cost(x.size, x.entry) >= 0.0
      modifies `activeReserved, `activeByFamily, `pendingReserved, `pendingByFamily, `reserved, `reservedByFamily
      ensures Valid() && ReserveView() == Hydrate(old(ReserveView()), x, now)
    {
      hide Spread, Cost, Lookup, Consistent, AddActive, AddPending, Plus, PerFamily.Get, PerFamily.Set;
      var f, amount := FamilyOf(x.strategy), Cost(x.size, x.entry);
      ghost var b := BucketsView();
      if x.marketEnd <= now {
        SpreadLookup(pendingByFamily, f);
        SpreadUpdate(pendingByFamily, f, Lookup(pendingByFamily, f) + amount);
        pendingReserved := pendingReserved + amount;
        pendingByFamily := pendingByFamily[f := Lookup(pendingByFamily, f) + amount];
        SyncRawReservedTotals();
        AddPendingIsSound(b, BucketsView(), f, amount);
      } else {
        AddReserved(f, amount);
      }
    }

    // ----- Pure reads -----

    function HistoryView(): History
      reads this
    {
      History(strategyStats, recentResults, totalWins, totalLosses, totalTrades)
    }

    function GetDrawdownPct(): (r: real)
      reads this
      ensures r == Drawdown.Current(View().equity)
    {
      if highWaterMark <= 0.0 then 0.0 else (highWaterMark - currentBalance) / highWaterMark
    }

    function EffectiveReservedCapital(c: Config): (r: real)
      reads this
      ensures Valid() ==> r == EffectiveReserved(ReserveView(), c)
    {
      hide Spread, Share, PendingPolicy;
      var b := BucketsView();
      if Overridden(b) then Max(reserved, 0.0)
      else activeReserved + Share(pendingReserved, PendingPolicy(c).globalFraction)
    }

    function EffectiveReservedForFamily(f: Family, c: Config): (r: real)
      reads this
      ensures Valid() ==> r == EffectiveForFamily(ReserveView(), f, c)
    {
      hide Spread, Share, PendingPolicy;
      SpreadLookup(activeByFamily, f);
      SpreadLookup(pendingByFamily, f);
      SpreadLookup(reservedByFamily, f);
      var active, pending, total := Lookup(activeByFamily, f), Lookup(pendingByFamily, f), Lookup(reservedByFamily, f);
      if Apart(total, active + pending) then Max(total, 0.0)
      else active + Share(pending, PendingPolicy(c).familyFraction)
    }

    function OpenExposureHeadroom(c: Config): (r: Option<real>)
      reads this
      ensures Valid() ==> r == Headroom(ReserveView(), c)
    {
      hide Spread, Consistent, Reserve.Committed, Ceiling;
      CommittedIs(BucketsView());
      match Ceiling(c)
      case None => None
      case Some(ceiling) => Some(Max(ceiling - (activeReserved + pendingReserved), 0.0))
    }

    function AvailableBudget(f: Family, c: Config): (r: real)
      reads this
      ensures Valid() ==> r == Budget(View(), f, c)
    {
      hide Spread, Share, EffectiveReserved, EffectiveForFamily, Consistent;
      var available := Max(currentBalance - EffectiveReservedCapital(c), 0.0);
      var budget := Min(Min(Min(available, Share(currentBalance, c.maxPositionUsdFraction)), c.maxPositionUsd),
                        Share(currentBalance, FractionTarget(f, c)));
      var sleeve := ExplicitSleeve(f, c);
      if sleeve.Some? then
        var familyBudget := Max(Share(currentBalance, sleeve.value) - EffectiveReservedForFamily(f, c), 0.0);
        Max(Min(budget, familyBudget), 0.0)
      else Max(budget, 0.0)
    }

    function AvailableNow(f: Family, c: Config): (r: real)
      reads this
      ensures Valid() ==> r == Available(View(), f, c)
    {
      hide Spread, Budget, EffectiveReserved, Headroom, Consistent;
      Capped(Min(AvailableBudget(f, c), currentBalance - EffectiveReservedCapital(c)), OpenExposureHeadroom(c))
    }

    function AssessSpreadAffordability(up: real, down: real, minSize: real, f: Family, c: Config): (r: Affordability)
      reads this
      ensures Valid() ==> r == Assess(View(), up, down, minSize, f, c)
    {
      hide Spread, Budget, Consistent, Cost, RequiredUnits;
      var budget := AvailableBudget(f, c);
      if up <= 0.0 || down <= 0.0 || up >= 1.0 || down >= 1.0 || up + down <= 0.0 then
        Affordability(false, budget, 0.0, 0.0, Some(SpreadBudgetTooSmall))
      else
        var units := RequiredUnits(up, down, minSize, c.minBetUsd);
        var notional := Cost(units, up + down);
        if budget + 0.000000001 >= notional then Affordability(true, budget, units, notional, None)
        else
          var failure := if UnitsForMarket(minSize) > UnitsForBet(up, down, c.minBetUsd) then BelowMarketMinSize
                         else SpreadBudgetTooSmall;
          Affordability(false, budget, units, notional, Some(failure))
    }

    // ----- The gate, sizing, results -----

    method CanTrade(c: Config, now: nat) returns (allowed: bool)
      modifies `pauseUntil, `pauseArmed
      ensures (allowed, View()) == Bankroll.CanTrade(old(View()), c, now)
    {
      hide Spread;
      if currentBalance < c.minBalance {
        return false;
      }
      if GetDrawdownPct() >= c.maxDrawdownPct {
        return false;
      }
      var peakDd := GetDrawdownPct();
      var recoveryThreshold := c.pausePct - c.recoveryPct;
      if peakDd < recoveryThreshold {
        pauseArmed := true;
        pauseUntil := 0;
      }
      if peakDd >= c.pausePct && pauseArmed {
        if pauseUntil == 0 {
          pauseUntil := now + c.pauseMs;
        }
        if now < pauseUntil {
          return false;
        }
        pauseUntil := 0;
        pauseArmed := false;
      } else if peakDd < c.pausePct {
        pauseUntil := 0;
      }
      return true;
    }

    method ReserveCapitalWithReservePrice(entry: real, reservePrice: real, confidence: real, s: Strategy, f: Family,
                                          c: Config, now: nat)
      returns (tokens: real)
      requires Valid()
      modifies this
      ensures Valid() && (View(), tokens) == ReserveSingle(old(View()), entry, reservePrice, confidence, s, f, c, now)
    {
      hide Spread, Consistent, SingleTokens, AddActive, Cost, Bankroll.CanTrade;
      var allowed := CanTrade(c, now);
      if !allowed {
        return 0.0;
      }
      tokens := TokensNow(entry, reservePrice, confidence, s, f, c);
      if tokens <= 0.0 {
        return 0.0;
      }
      CostPositive(tokens, reservePrice);
      AddReserved(f, Cost(tokens, reservePrice));
    }

    /** Size a one-sided order against the present state. */
    method TokensNow(entry: real, reservePrice: real, confidence: real, s: Strategy, f: Family, c: Config)
      returns (tokens: real)
      requires Valid()
      ensures tokens == SingleTokens(View(), entry, reservePrice, confidence, s, f, c)
      ensures tokens > 0.0 ==> PriceOk(reservePrice)
    {
      hide Spread, Consistent, Available, PositionFraction, Cost, Share, Floor, Ceil;
      if entry <= 0.0 || entry >= 1.0 || reservePrice <= 0.0 || reservePrice >= 1.0 {
        return 0.0;
      }
      var available := AvailableNow(f, c);
      if available <= 0.0 {
        return 0.0;
      }
      var fraction := PositionFraction(HistoryView(), entry, confidence, s, f, c);
      if fraction <= 0.0 {
        return 0.0;
      }
      var maxPositionUsd := Share(currentBalance, c.maxPositionUsdFraction);
      var notional := Min(Min(Min(Share(currentBalance, fraction), available), maxPositionUsd), c.maxPositionUsd);
      tokens := Floor(notional / reservePrice);
      if tokens > 0.0 && Cost(tokens, entry) < c.minBetUsd {
        var minTokens := Ceil(c.minBetUsd / entry);
        if Cost(minTokens, reservePrice) <= available && Cost(minTokens, reservePrice) <= maxPositionUsd
           && Cost(minTokens, reservePrice) <= c.maxPositionUsd {
          tokens := minTokens;
        }
      }
      if tokens <= 0.0 {
        return 0.0;
      }
    }

    method ReserveSpreadCapital(up: real, down: real, f: Family, c: Config, now: nat) returns (units: real)
      requires Valid()
      modifies this
      ensures Valid() && (View(), units) == ReserveSpread(old(View()), up, down, f, c, now)
    {
      hide Spread, Consistent, PairUnits, AddActive, Cost, Bankroll.CanTrade;
      var allowed := CanTrade(c, now);
      if !allowed {
        return 0.0;
      }
      units := UnitsNow(up, down, f, c);
      if units <= 0.0 {
        return 0.0;
      }
      CostPositive(units, up + down);
      AddReserved(f, Cost(units, up + down));
    }

    /** Size a two-sided order against the present state. */
    method UnitsNow(up: real, down: real, f: Family, c: Config) returns (units: real)
      requires Valid()
      ensures units == PairUnits(View(), up, down, f, c)
      ensures units > 0.0 ==> PriceOk(up) && PriceOk(down)
    {
      hide Spread, Consistent, Available, Floor;
      if up <= 0.0 || down <= 0.0 || up >= 1.0 || down >= 1.0 {
        return 0.0;
      }
      var available := AvailableNow(f, c);
      if available <= 0.0 {
        return 0.0;
      }
      units := Floor(available / (up + down));
      if units <= 0.0 {
        return 0.0;
      }
    }

    method ReleaseReservedForStrategy(amount: real, s: Strategy)
      requires Valid()
      modifies `activeReserved, `activeByFamily, `pendingReserved, `pendingByFamily, `reserved, `reservedByFamily
      ensures Valid() && View() == ReleaseFor(old(View()), amount, s)
    {
      hide Spread, Consistent, Release;
      ConsistentNotOverridden(BucketsView(), FamilyOf(s));
      ReleaseReservedForFamily(amount, FamilyOf(s));
    }

    /** Shared tail of a closed trade and of a correction: high-water mark and peak drawdown follow the balance. */
    method MoveBalance(delta: real)
      modifies `currentBalance, `highWaterMark, `peakDrawdownPct
      ensures View() == old(View()).(equity := Drawdown.Move(old(View()).equity, delta))
    {
      hide Spread;
      currentBalance := currentBalance + delta;
      if currentBalance > highWaterMark {
        highWaterMark := currentBalance;
      }
      var drawdown := GetDrawdownPct();
      if drawdown > peakDrawdownPct {
        peakDrawdownPct := drawdown;
      }
    }

    method ApplyTradeResult(entry: real, size: real, settlement: real, fee: real, s: Strategy) returns (pnl: real)
      requires Valid()
      modifies this
      ensures Valid() && View() == ApplyResult(old(View()), entry, size, settlement, fee, s, kellyWindow)
      ensures pnl == TradePnl(entry, size, settlement, fee)
    {
      hide Spread, Consistent, Release, Cost, Drawdown.Move, Record;
      pnl := Cost(size, settlement) - Cost(size, entry) - fee;
      ReleaseReservedForStrategy(Cost(size, entry), s);
      totalFees := totalFees + fee;
      RecordOutcome(s, pnl > 0.0);
      MoveBalance(pnl);
    }

    method RecordOutcome(s: Strategy, won: bool)
      modifies `totalTrades, `totalWins, `totalLosses, `strategyStats, `recentResults
      ensures View() == old(View()).(history := Record(old(View()).history, TradeOutcome(s, won), kellyWindow))
    {
      hide Spread;
      totalTrades := totalTrades + 1;
      if won {
        totalWins := totalWins + 1;
      } else {
        totalLosses := totalLosses + 1;
      }
      var tally := if s in strategyStats then strategyStats[s] else Tally(0, 0);
      strategyStats := strategyStats[s := if won then tally.(wins := tally.wins + 1)
                                     else tally.(losses := tally.losses + 1)];
      recentResults := recentResults + [TradeOutcome(s, won)];
      if |recentResults| > kellyWindow {
        recentResults := recentResults[1..];
      }
    }

    method ApplySettlementCorrection(oldPnl: real, newPnl: real)
      requires Valid()
      modifies this
      ensures Valid() && View() == ApplyCorrection(old(View()), oldPnl, newPnl)
    {
      hide Spread, Consistent, Drawdown.Move;
      var delta := newPnl - oldPnl;
      totalFees := Max(totalFees + delta, 0.0);
      var wasWin, isWin := oldPnl > 0.0, newPnl > 0.0;
      if wasWin && !isWin {
        if totalWins > 0 {
          totalWins := totalWins - 1;
        }
        totalLosses := totalLosses + 1;
      } else if !wasWin && isWin {
        if totalLosses > 0 {
          totalLosses := totalLosses - 1;
        }
        totalWins := totalWins + 1;
      }
      MoveBalance(delta);
    }
  }

  // ----- Bucket updates, on values -----

  lemma EmptyBuckets()
    ensures Spread(map[]) == NOTHING && Consistent(Buckets(0.0, 0.0, 0.0, NOTHING, NOTHING, NOTHING))
  {
  }

  lemma CommittedIs(b: Buckets)
    ensures Consistent(b) ==> b.active + b.pending == Reserve(b.activeBy, b.pendingBy).Committed()
  {
  }

  lemma AddIsSound(b: Buckets, b': Buckets, f: Family, amount: real)
    requires Consistent(b) && amount >= 0.0
    requires b'.active == b.active + amount && b'.activeBy == b.activeBy.Set(f, b.activeBy.Get(f) + amount)
    requires b'.pending == b.pending && b'.pendingBy == b.pendingBy
    requires b'.raw == b'.active + b'.pending && b'.rawBy == Plus(b'.activeBy, b'.pendingBy)
    ensures Consistent(b')
    ensures Reserve(b'.activeBy, b'.pendingBy) == AddActive(Reserve(b.activeBy, b.pendingBy), f, amount)
  {
  }

  lemma AddPendingIsSound(b: Buckets, b': Buckets, f: Family, amount: real)
    requires Consistent(b) && amount >= 0.0
    requires b'.pending == b.pending + amount && b'.pendingBy == b.pendingBy.Set(f, b.pendingBy.Get(f) + amount)
    requires b'.active == b.active && b'.activeBy == b.activeBy
    requires b'.raw == b'.active + b'.pending && b'.rawBy == Plus(b'.activeBy, b'.pendingBy)
    ensures Consistent(b')
    ensures Reserve(b'.activeBy, b'.pendingBy) == AddPending(Reserve(b.activeBy, b.pendingBy), f, amount)
  {
  }

  lemma ReleaseIsSound(b: Buckets, b': Buckets, f: Family, amount: real)
    requires Consistent(b)
    requires var a := Min(amount, b.activeBy.Get(f));
             var rest := Max(amount - a, 0.0);
             var p := Min(rest, b.pendingBy.Get(f));
             && (if a > 0.0 then b'.active == Max(b.active - a, 0.0)
                 && b'.activeBy == b.activeBy.Set(f, Max(b.activeBy.Get(f) - a, 0.0))
                 else b'.active == b.active && b'.activeBy == b.activeBy)
             && (if rest > 0.0 && p > 0.0 then b'.pending == Max(b.pending - p, 0.0)
                 && b'.pendingBy == b.pendingBy.Set(f, Max(b.pendingBy.Get(f) - p, 0.0))
                 else b'.pending == b.pending && b'.pendingBy == b.pendingBy)
             && b'.raw == b'.active + b'.pending && b'.rawBy == Plus(b'.activeBy, b'.pendingBy)
    ensures Consistent(b')
    ensures Reserve(b'.activeBy, b'.pendingBy) == Release(Reserve(b.activeBy, b.pendingBy), f, amount)
  {
  }

  lemma TransitionIsSound(b: Buckets, b': Buckets, f: Family, amount: real)
    requires Consistent(b)
    requires var a := Min(amount, b.activeBy.Get(f));
             if a > 0.0 then
               && b'.active == Max(b.active - a, 0.0)
                  && b'.activeBy == b.activeBy.Set(f, Max(b.activeBy.Get(f) - a, 0.0))
               && b'.pending == b.pending + a && b'.pendingBy == b.pendingBy.Set(f, b.pendingBy.Get(f) + a)
               && b'.raw == b'.active + b'.pending && b'.rawBy == Plus(b'.activeBy, b'.pendingBy)
             else b' == b
    ensures Consistent(b')
    ensures Reserve(b'.activeBy, b'.pendingBy) == Transition(Reserve(b.activeBy, b.pendingBy), f, amount)
  {
  }

  // ----- Draining in steps -----

  const FAMILIES: seq<Family> := [LatencyArb, SpreadCapture, CalmPersistence]

  /** One family's turn: it gives what it can of the unmet amount. */
  function DrainOne(p: PerFamily, unmet: real, f: Family): (PerFamily, real) {
    var t := Taken(p.Get(f), unmet);
    (p.Set(f, p.Get(f) - t), unmet - t)
  }

  /** `Drain` after its first `n` families. */
  function DrainFirst(p: PerFamily, amount: real, n: nat): (PerFamily, real)
    requires n <= 3
  {
    if n == 0 then (p, Max(amount, 0.0))
    else
      var (before, unmet) := DrainFirst(p, amount, n - 1);
      DrainOne(before, unmet, FAMILIES[n - 1])
  }

  lemma DrainFirstStarts(p: PerFamily, amount: real)
    ensures DrainFirst(p, amount, 0) == (p, Max(amount, 0.0))
  {
  }

  /** The turn as the loop takes it, with its clamped subtractions. */
  lemma DrainOneIs(p: PerFamily, unmet: real, f: Family)
    requires p.NonNegative() && unmet > 0.0
    ensures var released := Min(unmet, p.Get(f));
            && 0.0 <= released <= p.Sum()
            && DrainOne(p, unmet, f)
               == (if released > 0.0 then p.Set(f, Max(p.Get(f) - released, 0.0)) else p, Max(unmet - released, 0.0))
  {
  }

  lemma DrainFirstStep(p: PerFamily, amount: real, n: nat, before: PerFamily, unmet: real, f: Family)
    requires n < 3 && f == FAMILIES[n]
    requires before.NonNegative() && (before, unmet) == DrainFirst(p, amount, n) && unmet > 0.0
    ensures var released := Min(unmet, before.Get(f));
            && 0.0 <= released <= before.Sum()
            && DrainFirst(p, amount, n + 1)
               == (if released > 0.0 then before.Set(f, Max(before.Get(f) - released, 0.0)) else before,
                   Max(unmet - released, 0.0))
  {
    hide DrainOne;
    DrainOneIs(before, unmet, f);
  }

  /** A turn keeps both sides non-negative, and with nothing unmet it changes nothing. */
  lemma DrainOneKeeps(p: PerFamily, unmet: real, f: Family)
    requires p.NonNegative() && unmet >= 0.0
    ensures var (p', unmet') := DrainOne(p, unmet, f);
            p'.NonNegative() && unmet' >= 0.0 && (unmet == 0.0 ==> p' == p && unmet' == unmet)
  {
  }

  /** Stopping early because nothing is left to release changes nothing. */
  lemma {:induction false} DrainFirstDone(p: PerFamily, amount: real, n: nat)
    requires p.NonNegative() && n <= 3
    ensures var (p', unmet) := DrainFirst(p, amount, n);
            && p'.NonNegative() && unmet >= 0.0
            && (n == 3 || unmet == 0.0 ==> DrainFirst(p, amount, n) == DrainFirst(p, amount, 3))
    decreases 3 - n
  {
    hide DrainOne;
    DrainFirstKeeps(p, amount, n);
    if n < 3 {
      var (p', unmet) := DrainFirst(p, amount, n);
      DrainOneKeeps(p', unmet, FAMILIES[n]);
      DrainFirstDone(p, amount, n + 1);
    }
  }

  lemma {:induction false} DrainFirstKeeps(p: PerFamily, amount: real, n: nat)
    requires p.NonNegative() && n <= 3
    ensures var (p', unmet) := DrainFirst(p, amount, n); p'.NonNegative() && unmet >= 0.0
  {
    hide DrainOne;
    if n > 0 {
      DrainFirstKeeps(p, amount, n - 1);
      var (before, unmet) := DrainFirst(p, amount, n - 1);
      DrainOneKeeps(before, unmet, FAMILIES[n - 1]);
    }
  }

  lemma DrainFirstAll(p: PerFamily, amount: real)
    ensures DrainFirst(p, amount, 3) == Drain(p, amount)
  {
    hide Taken;
    var a := Max(amount, 0.0);
    var l := Taken(p.latency, a);
    var s := Taken(p.spread, a - l);
    assert DrainFirst(p, amount, 0) == (p, a);
    assert DrainFirst(p, amount, 1) == (p.Set(LatencyArb, p.latency - l), a - l);
    assert DrainFirst(p, amount, 2) == (PerFamily(p.latency - l, p.spread - s, p.calm), a - l - s);
  }

  lemma DrainNothing(p: PerFamily, amount: real)
    requires p.NonNegative() && amount <= 0.0
    ensures Drain(p, amount).0 == p
  {
  }
}
