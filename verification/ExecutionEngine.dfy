/** The execution engine as the mutable object the bot holds, proved to behave as the value in `Executor`. */
module ExecutionEngine {
  import opened Basics
  import opened Settings
  import opened Reserves
  import opened Executor
  import opened BankrollManager
  import opened Lifecycle
  import Bankroll
  import Fees

  /** The stored rows the money core reads and writes. */
  class Database {
    var openTrades: seq<Trade>
    var balanceLog: seq<real>

    constructor ()
      ensures openTrades == [] && balanceLog == []
    {
      openTrades, balanceLog := [], [];
    }
  }

  ghost function DeskOf(e: PaperEngine, m: Manager, db: Database): Desk
    reads e, m, db
  {
    Desk(m.View(), e.View(), db.openTrades, db.balanceLog)
  }

  datatype Disposition =
    | Deferred
    | Missed(missedGroup: Option<nat>, missedReport: Report)
    | Filled(trade: Trade, group: Option<nat>, report: Report)
    | StorageError

  class PaperEngine {
    var pendingOrders: seq<Order>
    var recentOutcomes: seq<Report>
    var stats: Stats
    var nextGroupId: nat
    const session: nat

    ghost function View(): Engine
      reads this
    {
      Engine(pendingOrders, recentOutcomes, stats, nextGroupId, session)
    }

    constructor (session: nat)
      ensures View() == NewEngine(session)
    {
      pendingOrders, recentOutcomes, stats, nextGroupId := [], [], NO_STATS, 1;
      this.session := session;
    }

    // ----- Submission -----

    method Submit(o: Order, c: Config)
      modifies `stats, `pendingOrders
      ensures View() == Enqueue(old(View()), o, c)
    {
      stats := stats.(submitted := stats.submitted + 1, requestedSize := stats.requestedSize + o.size);
      if c.mode != LiveTrading {
        pendingOrders := pendingOrders + [o];
      }
    }

    method SubmitSingle(s: Signal, id: int, w: Window, db: Database, bankroll: Manager, c: Config, now: nat,
                        stored: bool)
      returns (r: Submission)
      requires bankroll.Valid()
      modifies this, bankroll
      ensures bankroll.Valid()
      ensures (DeskOf(this, bankroll, db), r)
              == Executor.SubmitSingle(old(DeskOf(this, bankroll, db)), s, id, w, c, now, stored)
    {
      hide SingleQueueRejection, Bankroll.ReserveSingle, Release, Cost, SizeRejection, Enqueue, Consistent, Spread;
      if !stored {
        return StorageFailed;
      }
      var rejection := SingleRejection(s, w, db, c, now, bankroll);
      if rejection.Some? {
        return Rejected(rejection.value);
      }
      var price, limit := Ask(s), SingleLimit(s, c);
      var size := bankroll.ReserveCapitalWithReservePrice(price, limit, s.confidence, s.strategy, FamilyOf(s.strategy),
                                                          c, now);
      if size <= 0.0 {
        return Rejected(SleeveExhausted);
      }
      var tooSmall := SizeRejection(size, price, w.minSize.GetOr(0.0), c.minBetUsd);
      if tooSmall.Some? {
        bankroll.ReleaseReservedForStrategy(Cost(size, limit), s.strategy);
        return Rejected(tooSmall.value);
      }
      var order := SingleOrder(s, id, w, size, c);
      Submit(order, c);
      return Queued([order]);
    }

    method SingleRejection(s: Signal, w: Window, db: Database, c: Config, now: nat, ghost bankroll: Manager)
      returns (r: Option<RejectReason>)
      ensures r == SingleQueueRejection(DeskOf(this, bankroll, db), s, w, c, now)
    {
      hide RelevantOpen;
      var openCount := RelevantOpen(db.openTrades, c, now);
      if openCount + |pendingOrders| + 1 > c.maxOpenPositions {
        return Some(MaxOpenPositions);
      }
      if TradeHolds(db.openTrades, w.market, s.strategy, None) {
        return Some(DuplicateOpenPosition);
      }
      if QueueHolds(pendingOrders, w.market, s.strategy, None) {
        return Some(DuplicatePendingOrder);
      }
      return None;
    }

    method SubmitSpread(ss: seq<Signal>, ids: seq<int>, w: Window, db: Database, bankroll: Manager, c: Config,
                        now: nat, stored: bool)
      returns (r: Submission)
      requires bankroll.Valid() && |ids| == |ss|
      modifies this, bankroll
      ensures bankroll.Valid()
      ensures (DeskOf(this, bankroll, db), r)
              == Executor.SubmitSpread(old(DeskOf(this, bankroll, db)), ss, ids, w, c, now, stored)
    {
      hide SpreadQueueRejection, SubmitPair, FirstIndex, SpreadArrival, Consistent, Spread;
      if !stored {
        return StorageFailed;
      }
      var rejection := SpreadRejection(ss, w, db, c, now, bankroll);
      if rejection.Some? {
        return Rejected(rejection.value);
      }
      var up, down := FirstIndex(ss, Up), FirstIndex(ss, Down);
      if up.None? || down.None? {
        return Queued([]);
      }
      r := SubmitLegs(ss[up.value], ids[up.value], ss[down.value], ids[down.value], w, SpreadArrival(ss, c, now), db,
                      bankroll, c, now);
    }

    method SpreadRejection(ss: seq<Signal>, w: Window, db: Database, c: Config, now: nat, ghost bankroll: Manager)
      returns (r: Option<RejectReason>)
      ensures r == SpreadQueueRejection(DeskOf(this, bankroll, db), ss, w, c, now)
    {
      hide RelevantOpen, TradeHolds, QueueHolds;
      var openCount := RelevantOpen(db.openTrades, c, now);
      if openCount + |pendingOrders| + 2 > c.maxOpenPositions {
        return Some(MaxOpenPositions);
      }
      if exists i | 0 <= i < |ss| :: TradeHolds(db.openTrades, w.market, ss[i].strategy, Some(ss[i].direction)) {
        return Some(DuplicateOpenPosition);
      }
      if exists i | 0 <= i < |ss| :: QueueHolds(pendingOrders, w.market, ss[i].strategy, Some(ss[i].direction)) {
        return Some(DuplicatePendingOrder);
      }
      return None;
    }

    method SubmitLegs(up: Signal, upId: int, down: Signal, downId: int, w: Window, arrival: nat, db: Database,
                      bankroll: Manager, c: Config, now: nat)
      returns (r: Submission)
      requires bankroll.Valid()
      modifies this, bankroll
      ensures bankroll.Valid()
      ensures (DeskOf(this, bankroll, db), r)
              == SubmitPair(old(DeskOf(this, bankroll, db)), up, upId, down, downId, w, arrival, c, now)
    {
      hide Bankroll.ReserveSpread, Release, Cost, SpreadSizeRejection, Enqueue, Consistent, Spread, Fees.SpreadNetEdge,
        WindowFees;
      var fees := WindowFees(w, c);
      if Fees.SpreadNetEdge(up.upAsk, down.downAsk, 1.0, fees) <= 0.0 {
        return Rejected(NetEdge);
      }
      var units := bankroll.ReserveSpreadCapital(up.upAsk, down.downAsk, SpreadCapture, c, now);
      if units <= 0.0 {
        return Rejected(SleeveExhausted);
      }
      var tooSmall := SpreadSizeRejection(units, up.upAsk, down.downAsk, w.minSize.GetOr(0.0), c.minBetUsd);
      if tooSmall.Some? {
        bankroll.ReleaseReservedForStrategy(Cost(units, up.upAsk) + Cost(units, down.downAsk), up.strategy);
        return Rejected(tooSmall.value);
      }
      var group := nextGroupId;
      nextGroupId := nextGroupId + 1;
      var upOrder := SpreadOrder(up, upId, w, arrival, group, units);
      var downOrder := SpreadOrder(down, downId, w, arrival, group, units);
      Submit(upOrder, c);
      Submit(downOrder, c);
      return Queued([upOrder, downOrder]);
    }

    // ----- Due orders -----

    /** Give the reserve of an unfilled order back and report the miss. */
    method RejectOrder(o: Order, bankroll: Manager, tracked: bool, reason: MissReason, fault: Fault)
      returns (d: Disposition)
      requires bankroll.Valid()
      modifies `stats, bankroll
      ensures bankroll.Valid() && bankroll.View() == Bankroll.ReleaseFor(old(bankroll.View()), o.reserved, o.strategy)
      ensures stats == old(stats).(missed := old(stats).missed + 1)
      ensures d == if fault == OutcomeWriteFails then StorageError
                   else Missed(if tracked then o.group else None, ReportOf(o, Some(reason), 0.0))
    {
      hide Release, Consistent, Spread;
      bankroll.ReleaseReservedForStrategy(o.reserved, o.strategy);
      stats := stats.(missed := stats.missed + 1);
      if fault == OutcomeWriteFails {
        return StorageError;
      }
      return Missed(if tracked then o.group else None, ReportOf(o, Some(reason), 0.0));
    }

    /** Keep the cost of the fill reserved, store the trade, report the fill. */
    method FillDueOrder(o: Order, w: Window, price: real, size: real, now: nat, db: Database, bankroll: Manager,
                        fault: Fault)
      returns (d: Disposition)
      requires bankroll.Valid()
      modifies `stats, bankroll, db`openTrades
      ensures bankroll.Valid()
      ensures bankroll.View() ==
                if o.reserved > Cost(size, price)
                then Bankroll.ReleaseFor(old(bankroll.View()), o.reserved - Cost(size, price), o.strategy)
                else old(bankroll.View())
      ensures stats == RecordFill(old(stats), o, price, size, now)
      ensures db.openTrades ==
                if fault == OpenTradeFails then old(db.openTrades)
                  else old(db.openTrades) + [BuildTrade(o, w, price, size, session)]
      ensures d == if fault != NoFault then StorageError
              else Filled(BuildTrade(o, w, price, size, session), o.group, ReportOf(o, None, size))
    {
      hide Release, Consistent, Spread, Cost;
      var fillCost := Cost(size, price);
      if o.reserved > fillCost {
        bankroll.ReleaseReservedForStrategy(o.reserved - fillCost, o.strategy);
      }
      if size < o.size {
        stats := stats.(partial := stats.partial + 1);
      }
      stats := stats.(filled := stats.filled + 1,
                      filledSize := stats.filledSize + size,
                      slippage := stats.slippage + Cost(size, Max(price - o.requestedPrice, 0.0)),
                      latencyMs := stats.latencyMs + SatSub(now, o.signalTime));
      var trade := BuildTrade(o, w, price, size, session);
      if fault == OpenTradeFails {
        return StorageError;
      }
      db.openTrades := db.openTrades + [trade];
      if fault == OutcomeWriteFails {
        return StorageError;
      }
      return Filled(trade, o.group, ReportOf(o, None, size));
    }

    /** Resolve one order: the chain of checks ends in a deferral, a miss or a fill, as `Decide` says. */
    method ProcessDueOrder(o: Order, x: Context, db: Database, bankroll: Manager, fault: Fault) returns (d: Disposition)
      requires bankroll.Valid()
      modifies `stats, bankroll, db`openTrades
      ensures bankroll.Valid()
      ensures StepSays(o, x, fault, old(bankroll.View()), old(stats), old(db.openTrades), bankroll.View(), stats,
                       db.openTrades, d)
    {
      hide Release, Consistent, Spread, Cost, BookRejection, TickAligned, FillTooSmall, RecordFill;
      if o.arrival > x.now {
        return Deferred;
      }
      if x.window.None? || x.window.value.market != o.market {
        d := RejectOrder(o, bankroll, false, WindowMissing, fault);
        return;
      }
      var w := x.window.value;
      var side := if o.side == Up then x.books.up else x.books.down;
      if side.None? {
        d := RejectOrder(o, bankroll, true, BookUnavailable, fault);
        return;
      }
      var book := side.value;
      var rejection := BookRejection(book, x.now, o.limitPrice, x.config.maxBookStalenessMs);
      if rejection.Some? {
        d := RejectOrder(o, bankroll, true, rejection.value, fault);
        return;
      }
      var tick := w.tick.GetOr(0.0);
      if tick > 0.0 && (!TickAligned(o.limitPrice, tick) || !TickAligned(book.bestAsk, tick)) {
        d := RejectOrder(o, bankroll, true, TickMisaligned, fault);
        return;
      }
      var size := Min(o.size, book.askSize);
      if FillTooSmall(size, book.bestAsk, w.minSize.GetOr(0.0), x.config.minBetUsd) {
        d := RejectOrder(o, bankroll, true, FillBelowMin, fault);
        return;
      }
      d := FillDueOrder(o, w, book.bestAsk, size, x.now, db, bankroll, fault);
    }

    /** The outcome of one order, by its decision. */
    ghost predicate StepSays(o: Order, x: Context, fault: Fault, bank: Bankroll.Bank, st: Stats, ts: seq<Trade>,
                             bank': Bankroll.Bank, st': Stats, ts': seq<Trade>, d: Disposition)
    {
      match Decide(o, x)
      case Defer => bank' == bank && st' == st && ts' == ts && d == Deferred
      case Miss(tracked, reason) =>
        && bank' == Bankroll.ReleaseFor(bank, o.reserved, o.strategy) && st' == st.(missed := st.missed + 1)
           && ts' == ts
        && d == (if fault == OutcomeWriteFails then StorageError
                 else Missed(if tracked then o.group else None, ReportOf(o, Some(reason), 0.0)))
      case Fill(price, size) =>
        && x.window.Some?
        && var t := BuildTrade(o, x.window.value, price, size, session);
           && bank' == (if o.reserved > Cost(size, price)
                        then Bankroll.ReleaseFor(bank, o.reserved - Cost(size, price), o.strategy) else bank)
           && st' == RecordFill(st, o, price, size, x.now)
           && ts' == (if fault == OpenTradeFails then ts else ts + [t])
           && d == (if fault != NoFault then StorageError else Filled(t, o.group, ReportOf(o, None, size)))
    }

    /** The same outcome, as the batch step of `Executor`. */
    lemma StepIsStepOrder(b: Batch, o: Order, x: Context, fault: Fault, bank: Bankroll.Bank, bank': Bankroll.Bank,
                          st': Stats, ts': seq<Trade>, d: Disposition)
      requires !b.failed && bank.reserve == b.reserve
      requires StepSays(o, x, fault, bank, b.stats, b.trades, bank', st', ts', d)
      ensures var b' := StepOrder(b, o, x, fault, session);
              && bank' == bank.(reserve := b'.reserve) && st' == b'.stats && ts' == b'.trades
              && b'.failed == d.StorageError?
              && b'.remaining == (if d.Deferred? then b.remaining + [o] else b.remaining)
              && b'.reports == (match d
                                case Missed(_, report) => b.reports + [report]
                                case Filled(_, _, report) => b.reports + [report]
                                case _ => b.reports)
              && b'.groups == (match d
                               case Missed(group, _) => RecordGroup(b.groups, group, false)
                               case Filled(_, group, _) => RecordGroup(b.groups, group, true)
                               case _ => b.groups)
              && (d.Filled? ==> ts' == b.trades + [d.trade])
              && (d.Deferred? || d.Missed? ==> ts' == b.trades)
    {
      hide Decide, Release, RecordFill, RecordGroup, Cost;
      if Decide(o, x).Fill? { FillWithinLimit(o, x); }
    }

    /**
     * Process every due order. `orphaned` and `legFills` are the history the specification threads
     * through; `faults` says at which order a write fails.
     */
    method ProcessDueOrders(x: Context, db: Database, bankroll: Manager, faults: seq<Fault>,
                            ghost orphaned: PerFamily, ghost legFills: multiset<nat>)
      returns (trades: seq<Trade>, ok: bool)
      requires bankroll.Valid() && |faults| == |pendingOrders|
      modifies this, bankroll, db`openTrades
      ensures bankroll.Valid()
      ensures var d := old(DeskOf(this, bankroll, db));
              var b := DueBatch(d, x, faults, orphaned, legFills);
              && DeskOf(this, bankroll, db) == FinishBatch(d, b)
              && ok == !b.failed
              && (ok ==> db.openTrades == old(db.openTrades) + trades)
    {
      hide StepOrder, Consistent, Spread, RecordGroup, PaperEngine.StepSays;
      ghost var d := DeskOf(this, bankroll, db);
      ghost var b := StartBatch(d, orphaned, legFills);
      ghost var target := DueBatch(d, x, faults, orphaned, legFills);
      var remaining: seq<Order> := [];
      var groups: map<nat, (nat, nat)> := map[];
      var i := 0;
      trades := [];
      while pendingOrders != []
        invariant bankroll.Valid() && 0 <= i <= |faults| && |faults| - i == |pendingOrders|
        invariant b == Batch(bankroll.View().reserve, db.openTrades, stats, recentOutcomes, remaining, groups, false,
                             b.orphaned, b.legFills)
        invariant bankroll.View() == d.bank.(reserve := b.reserve)
        invariant RunBatch(b, pendingOrders, x, faults[i..], session) == target
        invariant nextGroupId == d.engine.nextGroup && db.balanceLog == d.log
        invariant db.openTrades == d.trades + trades
        decreases |pendingOrders|
      {
        var order := pendingOrders[0];
        pendingOrders := pendingOrders[1..];
        assert faults[i..][0] == faults[i] && faults[i..][1..] == faults[i + 1..];
        ghost var bank := bankroll.View();
        var outcome := ProcessDueOrder(order, x, db, bankroll, faults[i]);
        StepIsStepOrder(b, order, x, faults[i], bank, bankroll.View(), stats, db.openTrades, outcome);
        b := StepOrder(b, order, x, faults[i], session);
        match outcome {
          case StorageError =>
            pendingOrders := remaining + pendingOrders;
            return [], false;
          case Deferred =>
            remaining := remaining + [order];
          case Missed(group, report) =>
            recentOutcomes := recentOutcomes + [report];
            groups := RecordGroup(groups, group, false);
          case Filled(trade, group, report) =>
            recentOutcomes := recentOutcomes + [report];
            groups := RecordGroup(groups, group, true);
            trades := trades + [trade];
        }
        i := i + 1;
      }
      pendingOrders := remaining;
      var legged := CountLegged(groups);
      stats := stats.(legging := stats.legging + legged, residual := stats.residual + legged);
      ok := true;
    }

    /** Count the groups with exactly one of two legs filled, in whatever order the map yields them. */
    method CountLegged(groups: map<nat, (nat, nat)>) returns (n: nat)
      ensures n == |LeggedGroups(groups)|
    {
      n := 0;
      var rest := groups.Keys;
      ghost var counted: set<nat> := {};
      while rest != {}
        invariant rest <= groups.Keys && rest !! counted && n == |counted|
        invariant counted == set g | g in groups && g !in rest && groups[g] == (1, 2)
        decreases |rest|
      {
        var g :| g in rest;
        rest := rest - {g};
        if groups[g] == (1, 2) {
          n := n + 1;
          counted := counted + {g};
        }
      }
      assert LeggedGroups(groups) == counted;
    }
  }

  // ----- Market close, settlement, restart -----

  /** Reclassify the reserve of every open trade of a closed market. */
  method CloseMarketAndReclassify(market: string, e: PaperEngine, db: Database, bankroll: Manager)
    requires bankroll.Valid()
    modifies bankroll, db`openTrades
    ensures bankroll.Valid()
    ensures DeskOf(e, bankroll, db) == CloseMarket(old(DeskOf(e, bankroll, db)), market)
  {
    hide Transition, Consistent, Spread, Cost, Bankroll.Open;
    ghost var d := DeskOf(e, bankroll, db);
    var rows := db.openTrades;
    for i := 0 to |rows|
      invariant bankroll.Valid() && rows == d.trades && e.View() == d.engine && db.balanceLog == d.log
      invariant (bankroll.View().reserve, db.openTrades) == CloseUpTo(d.bank.reserve, rows, market, i)
      invariant bankroll.View() == d.bank.(reserve := bankroll.View().reserve)
    {
      var t := rows[i];
      if t.window.market == market {
        TransitionTrade(t, bankroll);
        db.openTrades := db.openTrades[i := t.(settling := true)];
      }
    }
  }

  method TransitionTrade(t: Trade, bankroll: Manager)
    requires bankroll.Valid()
    modifies bankroll
    ensures bankroll.Valid()
    ensures bankroll.View()
            == Bankroll.TransitionFor(old(bankroll.View()), Cost(t.size, t.entry), t.strategy)
  {
    hide Transition, Consistent, Spread, Cost;
    ConsistentNotOverridden(bankroll.BucketsView(), FamilyOf(t.strategy));
    bankroll.TransitionFamilyReserveToPending(Cost(t.size, t.entry), FamilyOf(t.strategy));
  }

  /** Settle one open trade at the winning side and log the balance. */
  method SettleTrade(i: nat, winner: Side, c: Config, e: PaperEngine, db: Database, bankroll: Manager)
    requires bankroll.Valid() && bankroll.kellyWindow == c.kellyWindow && i < |db.openTrades|
    modifies bankroll, db
    ensures bankroll.Valid()
    ensures DeskOf(e, bankroll, db) == Settle(old(DeskOf(e, bankroll, db)), i, winner, c)
  {
    hide Bankroll.ApplyResult, Consistent, Spread, Fees.TakerFee, WindowFees;
    var t := db.openTrades[i];
    var settlement := if t.side == winner then 1.0 else 0.0;
    var fee := Fees.TakerFee(t.entry, t.size, WindowFees(t.window, c));
    var _ := bankroll.ApplyTradeResult(t.entry, t.size, settlement, fee, t.strategy);
    db.openTrades := db.openTrades[..i] + db.openTrades[i + 1..];
    db.balanceLog := db.balanceLog + [bankroll.currentBalance];
  }

  /** Replace a provisional result by the authoritative one and log the balance. */
  method CorrectSettlement(oldPnl: real, newPnl: real, e: PaperEngine, db: Database, bankroll: Manager)
    requires bankroll.Valid()
    modifies bankroll, db`balanceLog
    ensures bankroll.Valid()
    ensures DeskOf(e, bankroll, db) == Correct(old(DeskOf(e, bankroll, db)), oldPnl, newPnl)
  {
    hide Bankroll.ApplyCorrection, Consistent, Spread;
    bankroll.ApplySettlementCorrection(oldPnl, newPnl);
    db.balanceLog := db.balanceLog + [bankroll.currentBalance];
  }

  /** Start a new process on the stored rows. */
  method RestartDesk(starting: real, now: nat, c: Config, e: PaperEngine, db: Database, ghost bankroll: Manager)
    returns (e': PaperEngine, bankroll': Manager)
    requires forall i | 0 <= i < |db.openTrades| :: Cost(db.openTrades[i].size, db.openTrades[i].entry) >= 0.0
    modifies db
    ensures fresh(e') && fresh(bankroll') && bankroll'.Valid()
    ensures DeskOf(e', bankroll', db) == Restart(old(DeskOf(e, bankroll, db)), starting, now)
  {
    hide Consistent, Spread, Cost, Bankroll.HydrateAll, Bankroll.Open;
    var current := starting;
    if db.balanceLog == [] {
      db.balanceLog := [starting];
    } else {
      current := db.balanceLog[|db.balanceLog| - 1];
    }
    bankroll' := RestartBankroll(starting, current, c.kellyWindow, Exposures(db.openTrades), now);
    db.openTrades := Reclassified(db.openTrades, now);
    e' := new PaperEngine(e.session + 1);
  }

  method RestartBankroll(starting: real, current: real, window: nat, rows: seq<Bankroll.Exposure>, now: nat)
    returns (m: Manager)
    requires forall i | 0 <= i < |rows| :: Cost(rows[i].size, rows[i].entry) >= 0.0
    ensures fresh(m) && m.Valid()
    ensures m.View() == Bankroll.Open(starting, current).(reserve := Bankroll.HydrateAll(EMPTY, rows, now))
  {
    hide Consistent, Spread, Cost, Bankroll.HydrateAll;
    m := new Manager(starting, current, window);
    ghost var bank := m.View();
    m.HydrateUnresolved(rows, now);
    assert m.View() == bank.(reserve := m.View().reserve);
  }
}
