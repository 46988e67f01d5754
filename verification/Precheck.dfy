/** The spread precheck against the submission it predicts. */
module Precheck {
  import opened Basics
  import opened Settings
  import opened Executor
  import opened Sizing
  import Bankroll
  import DrawdownPause
  import Fees
  import Reserves

  // ----- Required units -----

  /** One leg's size rules, as lower bounds on a whole count. */
  lemma LegPasses(price: real, minSize: real, minBet: real, k: int)
    requires Bankroll.PriceOk(price)
    ensures SizeRejection(k as real, price, minSize, minBet).None? <==>
              k as real >= Ceil(minBet / price) && (minSize > 0.0 ==> k as real >= Ceil(minSize))
  {
    CeilCovers(minBet, price, k);
    CeilLeast(minSize, k);
    hide Ceil;
  }

  /** A whole unit count passes both legs' size rules exactly when it reaches the required units. */
  lemma RequiredUnitsExact(up: real, down: real, minSize: real, minBet: real, k: int)
    requires Bankroll.PriceOk(up) && Bankroll.PriceOk(down)
    ensures k as real >= Bankroll.RequiredUnits(up, down, minSize, minBet) <==>
              k >= 1 && SpreadSizeRejection(k as real, up, down, minSize, minBet).None?
  {
    hide Ceil, SizeRejection;
    LegPasses(up, minSize, minBet, k);
    LegPasses(down, minSize, minBet, k);
    assert k as real >= 1.0 <==> k >= 1;
    RequiredIs(Ceil(minBet / up), Ceil(minBet / down), Ceil(minSize), up, down, minSize, minBet);
    assert minSize <= 0.0 && k >= 1 ==> k as real >= Bankroll.UnitsForMarket(minSize);
  }

  lemma RequiredIs(a: real, b: real, m: real, up: real, down: real, minSize: real, minBet: real)
    requires up != 0.0 && down != 0.0 && a == Ceil(minBet / up) && b == Ceil(minBet / down) && m == Ceil(minSize)
    ensures Bankroll.RequiredUnits(up, down, minSize, minBet)
         == Max(Max(Max(a, b), if minSize > 0.0 then m else 0.0), 1.0)
  {
    hide Ceil;
  }

  lemma RequiredUnitsWhole(up: real, down: real, minSize: real, minBet: real) returns (k: int)
    requires Bankroll.PriceOk(up) && Bankroll.PriceOk(down)
    ensures k as real == Bankroll.RequiredUnits(up, down, minSize, minBet) && k >= 1
  {
    CeilBounds(minBet / up);
    CeilBounds(minBet / down);
    CeilBounds(minSize);
    k := Bankroll.RequiredUnits(up, down, minSize, minBet).Floor;
    hide Ceil, Floor;
  }

  // ----- The reservation -----

  /** Reserving right now would yield units that pass the engine's size rules. */
  predicate Accepted(b: Bankroll.Bank, up: real, down: real, minSize: real, f: Family, c: Config) {
    var units := Bankroll.PairUnits(b, up, down, f, c);
    units > 0.0 && SpreadSizeRejection(units, up, down, minSize, c.minBetUsd).None?
  }

  lemma PairUnitsIs(b: Bankroll.Bank, up: real, down: real, f: Family, c: Config) returns (k: int)
    requires Bankroll.PriceOk(up) && Bankroll.PriceOk(down)
    ensures k == (Bankroll.Available(b, f, c) / (up + down)).Floor
    ensures Bankroll.PairUnits(b, up, down, f, c)
         == if Bankroll.Available(b, f, c) > 0.0 && k >= 1 then k as real else 0.0
  {
    hide Bankroll.Available;
    k := (Bankroll.Available(b, f, c) / (up + down)).Floor;
  }

  lemma AcceptedIs(b: Bankroll.Bank, up: real, down: real, minSize: real, f: Family, c: Config) returns (k: int)
    requires Bankroll.PriceOk(up) && Bankroll.PriceOk(down)
    ensures k == (Bankroll.Available(b, f, c) / (up + down)).Floor
    ensures Accepted(b, up, down, minSize, f, c) <==>
              Bankroll.Available(b, f, c) > 0.0 && k as real >= Bankroll.RequiredUnits(up, down, minSize, c.minBetUsd)
    ensures Accepted(b, up, down, minSize, f, c) ==> Bankroll.PairUnits(b, up, down, f, c) == k as real
  {
    hide Bankroll.Available, Bankroll.PairUnits, SpreadSizeRejection, Bankroll.RequiredUnits;
    k := PairUnitsIs(b, up, down, f, c);
    RequiredUnitsExact(up, down, minSize, c.minBetUsd, k);
  }

  /** The floor of a quotient reaches a whole count exactly when the budget reaches that count's cost. */
  lemma FloorReaches(budget: real, price: real, k: int)
    requires price > 0.0
    ensures (budget / price).Floor >= k <==> budget >= Cost(k as real, price)
  {
    var q := (budget / price).Floor;
    FloorFits(budget, price);
    if k as real * price <= budget {
      FloorFitsMost(budget, price, k);
      assert q as real >= k as real;
    } else if q >= k {
      MulLe(k as real, q as real, price);
      assert false;
    }
  }

  /** A reservation passes exactly when what is available covers the required notional. */
  lemma AcceptedExactly(b: Bankroll.Bank, up: real, down: real, minSize: real, f: Family, c: Config)
    requires Bankroll.PriceOk(up) && Bankroll.PriceOk(down)
    ensures Accepted(b, up, down, minSize, f, c) <==>
              Bankroll.Available(b, f, c) >= Cost(Bankroll.RequiredUnits(up, down, minSize, c.minBetUsd), up + down)
    ensures Cost(Bankroll.RequiredUnits(up, down, minSize, c.minBetUsd), up + down) > 0.0
  {
    hide Bankroll.Available, Bankroll.RequiredUnits, Accepted;
    var required := RequiredUnitsWhole(up, down, minSize, c.minBetUsd);
    var k := AcceptedIs(b, up, down, minSize, f, c);
    CostPositive(required as real, up + down);
    FloorReaches(Bankroll.Available(b, f, c), up + down, required);
    assert k as real >= required as real <==> k >= required;
  }

  /** What is available covers a positive notional exactly when the budget and the headroom both do. */
  lemma AvailableCovers(b: Bankroll.Bank, f: Family, c: Config, notional: real)
    requires notional > 0.0
    ensures Bankroll.Available(b, f, c) >= notional <==>
              && Bankroll.Budget(b, f, c) >= notional
              && (Bankroll.Headroom(b.reserve, c).Some? ==> Bankroll.Headroom(b.reserve, c).value >= notional)
  {
    BudgetWithinCaps(b, f, c);
    hide Bankroll.Budget, Bankroll.EffectiveReserved, Bankroll.Headroom;
  }

  // ----- The submission -----

  /** The asks of a pair of signals promise a profit after fees. */
  predicate HasEdge(up: Signal, down: Signal, w: Window, c: Config) {
    Fees.SpreadNetEdge(up.upAsk, down.downAsk, 1.0, WindowFees(w, c)) > 0.0
  }

  predicate PairAccepted(d: Desk, up: Signal, down: Signal, w: Window, c: Config) {
    Accepted(d.bank, up.upAsk, down.downAsk, w.minSize.GetOr(0.0), SpreadCapture, c)
  }

  /** A pair is queued exactly when it has an edge, trading is allowed, and the reservation passes. */
  lemma PairQueuedExactly(d: Desk, up: Signal, upId: int, down: Signal, downId: int, w: Window, arrival: nat,
                          c: Config, now: nat)
    ensures SubmitPair(d, up, upId, down, downId, w, arrival, c, now).1.Queued? <==>
              HasEdge(up, down, w, c) && Bankroll.CanTrade(d.bank, c, now).0 && PairAccepted(d, up, down, w, c)
    ensures var r := SubmitPair(d, up, upId, down, downId, w, arrival, c, now).1;
            r.Queued? ==>
              |r.orders| == 2 && forall i | 0 <= i < 2 ::
                r.orders[i].size == Bankroll.PairUnits(d.bank, up.upAsk, down.downAsk, SpreadCapture, c)
  {
    hide Bankroll.PairUnits, SpreadSizeRejection, Fees.SpreadNetEdge, WindowFees, Enqueue, Reserves.Release,
      Reserves.AddActive,
      Cost, DrawdownPause.Check;
    UnitsIgnorePause(d.bank, Bankroll.CanTrade(d.bank, c, now).1.pause, up.upAsk, down.downAsk, SpreadCapture, c);
  }

  lemma UnitsIgnorePause(b: Bankroll.Bank, pause: DrawdownPause.Pause, up: real, down: real, f: Family, c: Config)
    ensures Bankroll.PairUnits(b.(pause := pause), up, down, f, c) == Bankroll.PairUnits(b, up, down, f, c)
  {
    hide Floor, Bankroll.EffectiveReserved, Bankroll.EffectiveForFamily, Bankroll.Share, FractionTarget,
      Bankroll.Headroom;
  }

  function Verdict(d: Desk, up: Signal, down: Signal, w: Window, c: Config): Bankroll.Affordability {
    Bankroll.Assess(d.bank, up.upAsk, down.downAsk, w.minSize.GetOr(0.0), SpreadCapture, c)
  }

  /** A refusal is never wrong: a pair judged not queueable is not queued. */
  lemma RefusalSound(d: Desk, up: Signal, upId: int, down: Signal, downId: int, w: Window, arrival: nat, c: Config,
                     now: nat)
    requires !Verdict(d, up, down, w, c).queueable
    ensures !SubmitPair(d, up, upId, down, downId, w, arrival, c, now).1.Queued?
  {
    PairQueuedExactly(d, up, upId, down, downId, w, arrival, c, now);
    RefusedReservation(d.bank, up.upAsk, down.downAsk, w.minSize.GetOr(0.0), SpreadCapture, c);
  }

  lemma RefusedReservation(b: Bankroll.Bank, up: real, down: real, minSize: real, f: Family, c: Config)
    requires !Bankroll.Assess(b, up, down, minSize, f, c).queueable
    ensures !Accepted(b, up, down, minSize, f, c)
  {
    hide Bankroll.Available, Bankroll.Budget, Bankroll.RequiredUnits;
    if Bankroll.PriceOk(up) && Bankroll.PriceOk(down) {
      AcceptedExactly(b, up, down, minSize, f, c);
      if Bankroll.Available(b, f, c) > 0.0 { AvailableWithinCaps(b, f, c); }
    }
  }

  lemma AssessIs(b: Bankroll.Bank, up: real, down: real, minSize: real, f: Family, c: Config)
    requires Bankroll.Assess(b, up, down, minSize, f, c).queueable
    ensures Bankroll.PriceOk(up) && Bankroll.PriceOk(down)
    ensures var check := Bankroll.Assess(b, up, down, minSize, f, c);
            && check.budget == Bankroll.Budget(b, f, c)
            && check.units == Bankroll.RequiredUnits(up, down, minSize, c.minBetUsd)
            && check.notional == Cost(check.units, up + down)
  {
    hide Bankroll.Budget, Bankroll.RequiredUnits;
  }

  lemma QueueableReservation(b: Bankroll.Bank, up: real, down: real, minSize: real, f: Family, c: Config)
    requires Bankroll.Assess(b, up, down, minSize, f, c).queueable
    ensures var check := Bankroll.Assess(b, up, down, minSize, f, c);
            Accepted(b, up, down, minSize, f, c) <==>
              && check.budget >= check.notional
              && (Bankroll.Headroom(b.reserve, c).Some? ==> Bankroll.Headroom(b.reserve, c).value >= check.notional)
    ensures Accepted(b, up, down, minSize, f, c) ==>
              Bankroll.PairUnits(b, up, down, f, c) >= Bankroll.Assess(b, up, down, minSize, f, c).units
  {
    hide Cost, Bankroll.Assess, Bankroll.Available, Bankroll.Budget, Bankroll.RequiredUnits, Accepted,
      Bankroll.PairUnits,
      Bankroll.Headroom;
    AssessIs(b, up, down, minSize, f, c);
    AcceptedExactly(b, up, down, minSize, f, c);
    AvailableCovers(b, f, c, Bankroll.Assess(b, up, down, minSize, f, c).notional);
    var k := AcceptedIs(b, up, down, minSize, f, c);
  }

  /**
   * A pair judged queueable is queued exactly when it has an edge, trading is allowed, the budget
   * covers the notional without the tolerance, and the ceiling, which the check does not look at,
   * has room; its legs then carry at least the required units.
   */
  lemma VerdictExact(d: Desk, up: Signal, upId: int, down: Signal, downId: int, w: Window, arrival: nat, c: Config,
                     now: nat)
    requires Verdict(d, up, down, w, c).queueable
    ensures var check, r := Verdict(d, up, down, w, c), SubmitPair(d, up, upId, down, downId, w, arrival, c, now).1;
            r.Queued? <==>
              && HasEdge(up, down, w, c) && Bankroll.CanTrade(d.bank, c, now).0
              && check.budget >= check.notional
              && (Bankroll.Headroom(d.bank.reserve, c).Some? ==>
                  Bankroll.Headroom(d.bank.reserve, c).value >= check.notional)
    ensures var check, r := Verdict(d, up, down, w, c), SubmitPair(d, up, upId, down, downId, w, arrival, c, now).1;
            r.Queued? ==> |r.orders| == 2 && r.orders[0].size == r.orders[1].size >= check.units
  {
    hide SubmitPair, Bankroll.Assess, Accepted, Bankroll.PairUnits, Bankroll.Headroom, Bankroll.CanTrade, HasEdge;
    PairQueuedExactly(d, up, upId, down, downId, w, arrival, c, now);
    QueueableReservation(d.bank, up.upAsk, down.downAsk, w.minSize.GetOr(0.0), SpreadCapture, c);
  }

  /** The same for the whole call: no order is queued for a list whose two legs are judged not queueable. */
  lemma SpreadRefusalSound(d: Desk, ss: seq<Signal>, ids: seq<int>, w: Window, c: Config, now: nat, stored: bool)
    requires |ids| == |ss|
    requires var up, down := FirstIndex(ss, Up), FirstIndex(ss, Down);
             up.Some? && down.Some? ==> !Verdict(d, ss[up.value], ss[down.value], w, c).queueable
    ensures SubmitSpread(d, ss, ids, w, c, now, stored).1.Queued? ==>
            SubmitSpread(d, ss, ids, w, c, now, stored).1.orders == []
  {
    hide SubmitPair, SpreadQueueRejection, FirstIndex, SpreadArrival, Bankroll.Assess;
    var up, down := FirstIndex(ss, Up), FirstIndex(ss, Down);
    if up.Some? && down.Some? {
      RefusalSound(d, ss[up.value], ids[up.value], ss[down.value], ids[down.value], w, SpreadArrival(ss, c, now), c,
                   now);
    }
  }
}
