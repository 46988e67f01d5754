/** The effect of a submission, told without its internals. */
module Submissions {
  import opened Basics
  import opened Settings
  import opened Reserves
  import opened Executor
  import opened Ledger
  import opened Legging
  import opened Batches
  import opened Sizing
  import Bankroll
  import Fees

  /** A one-sided submission either queues one fully backed order or changes nothing but the pause state. */
  lemma SubmitSingleEffect(d: Desk, s: Signal, id: int, w: Window, c: Config, now: nat, stored: bool)
    requires d.bank.reserve.NonNegative()
    ensures var (d', r) := SubmitSingle(d, s, id, w, c, now, stored);
            var bank1 := d.bank.(pause := d'.bank.pause);
            if r.Queued? then
              && |r.orders| == 1
              && var o := r.orders[0];
                 && d' == d.(bank := bank1.(reserve := AddActive(d.bank.reserve, FamilyOf(o.strategy), o.reserved)),
                             engine := Enqueue(d.engine, o, c))
                 && OrderOk(o) && o.group == None
                 && o.market == w.market && o.strategy == s.strategy && o.side == s.direction
                 && WithinCaps(d.bank, FamilyOf(o.strategy), c, o.reserved)
                 && SingleQueueRejection(d, s, w, c, now).None?
            else d' == d.(bank := bank1)
  {
    hide SingleQueueRejection, Bankroll.ReserveSingle, WithinCaps, Release, AddActive, Cost, Floor, SizeRejection,
      Enqueue;
    var limit, f := SingleLimit(s, c), FamilyOf(s.strategy);
    var (bank, size) := Bankroll.ReserveSingle(d.bank, Ask(s), limit, s.confidence, s.strategy, f, c, now);
    ReserveSingleWithinCaps(d.bank, Ask(s), limit, s.confidence, s.strategy, f, c, now);
    if size > 0.0 {
      ReserveThenRelease(d.bank.reserve, f, Cost(size, limit));
    }
  }

  /**
   * A two-sided submission either queues two fully backed legs of one new group or changes nothing but
   * the pause state.
   */
  lemma SubmitPairEffect(d: Desk, up: Signal, upId: int, down: Signal, downId: int, w: Window, arrival: nat, c: Config,
                         now: nat)
    requires d.bank.reserve.NonNegative()
    requires FamilyOf(up.strategy) == SpreadCapture && FamilyOf(down.strategy) == SpreadCapture
    requires up.direction == Up && down.direction == Down
    ensures var (d', r) := SubmitPair(d, up, upId, down, downId, w, arrival, c, now);
            PairEffect(d, w, c, d', r)
    ensures var (d', r) := SubmitPair(d, up, upId, down, downId, w, arrival, c, now);
            r.Queued? ==>
              && |r.orders| == 2
              && r.orders[0].strategy == up.strategy && r.orders[1].strategy == down.strategy
  {
    hide Bankroll.ReserveSpread, WithinCaps, Release, AddActive, Cost, Floor, SpreadSizeRejection, Enqueue,
      Fees.SpreadNetEdge, WindowFees;
    var u, n := up.upAsk, down.downAsk;
    var (bank, units) := Bankroll.ReserveSpread(d.bank, u, n, SpreadCapture, c, now);
    ReserveSpreadWithinCaps(d.bank, u, n, SpreadCapture, c, now);
    CostSplits(units, u, n);
    if units > 0.0 {
      CostPositiveIf(units, u);
      CostPositiveIf(units, n);
      ReserveThenRelease(d.bank.reserve, SpreadCapture, Cost(units, u + n));
    }
  }

  lemma CostPositiveIf(size: real, price: real)
    ensures size > 0.0 && price > 0.0 ==> Cost(size, price) > 0.0
  {
    if size > 0.0 && price > 0.0 { CostPositive(size, price); }
  }

  ghost predicate PairEffect(d: Desk, w: Window, c: Config, d': Desk, r: Submission) {
    var bank1 := d.bank.(pause := d'.bank.pause);
    if r.Queued? && r.orders != [] then
      && |r.orders| == 2
      && var u, n := r.orders[0], r.orders[1];
         && d' == d.(bank := bank1.(reserve := AddActive(d.bank.reserve, SpreadCapture, u.reserved + n.reserved)),
                     engine := Enqueue(Enqueue(d.engine.(nextGroup := d.engine.nextGroup + 1), u, c), n, c))
         && OrderOk(u) && OrderOk(n) && Legs(u, n) && u.group == Some(d.engine.nextGroup)
         && u.market == w.market
         && FamilyOf(u.strategy) == SpreadCapture && FamilyOf(n.strategy) == SpreadCapture
         && QuoteOk(Quote(w, u.limitPrice, n.limitPrice), c)
         && WithinCaps(d.bank, SpreadCapture, c, u.reserved + n.reserved)
    else d' == d.(bank := bank1)
  }

  ghost predicate SpreadSignals(ss: seq<Signal>) {
    forall i | 0 <= i < |ss| :: FamilyOf(ss[i].strategy) == SpreadCapture
  }

  lemma SubmitSpreadEffect(d: Desk, ss: seq<Signal>, ids: seq<int>, w: Window, c: Config, now: nat, stored: bool)
    requires d.bank.reserve.NonNegative() && |ids| == |ss| && SpreadSignals(ss)
    ensures var (d', r) := SubmitSpread(d, ss, ids, w, c, now, stored);
            && PairEffect(d, w, c, d', r)
            && (r.Queued? && r.orders != [] ==>
                  && SpreadQueueRejection(d, ss, w, c, now).None?
                  && |r.orders| == 2
                  && (exists i | 0 <= i < |ss| :: ss[i].strategy == r.orders[0].strategy && ss[i].direction == Up)
                  && (exists i | 0 <= i < |ss| :: ss[i].strategy == r.orders[1].strategy && ss[i].direction == Down))
  {
    hide SpreadQueueRejection, SubmitPair, SpreadArrival, FirstIndex, Enqueue, WithinCaps, AddActive, OrderOk, Legs,
      QuoteOk;
    var up, down := FirstIndex(ss, Up), FirstIndex(ss, Down);
    if up.Some? && down.Some? {
      SubmitPairEffect(d, ss[up.value], ids[up.value], ss[down.value], ids[down.value], w, SpreadArrival(ss, c, now),
                       c, now);
    }
  }

  /**
   * The strategy condition is exact. A spread is reserved from the spread family but released
   * through its strategy's family, so a size rejection undoes its reservation if and only if the
   * strategy maps to the spread family.
   */
  lemma RejectionUndoesExactly(r: Reserve, amount: real, s: Strategy)
    requires r.NonNegative() && amount > 0.0
    ensures Release(AddActive(r, SpreadCapture, amount), FamilyOf(s), amount) == r <==> FamilyOf(s) == SpreadCapture
  {
    var r' := Release(AddActive(r, SpreadCapture, amount), FamilyOf(s), amount);
    if FamilyOf(s) != SpreadCapture {
      assert r'.active.Get(SpreadCapture) == r.active.Get(SpreadCapture) + amount;
    }
  }
}
