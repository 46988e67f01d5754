/** Every event of a run keeps every invariant. */
module RunInvariants {
  import opened Basics
  import opened Settings
  import opened Reserves
  import opened Executor
  import opened Lifecycle
  import opened Ledger
  import opened Positions
  import opened Batches
  import opened Legging
  import opened Submissions
  import opened TradingRun
  import Bankroll
  import Drawdown
  import DrawdownPause
  import Sizing
  import Fees

  // ----- Submitting -----

  /** What one queued order adds to every invariant it touches. */
  lemma QueueOne(w: World, o: Order, setup: Setup, bank: Bankroll.Bank, now: nat)
    requires SetupOk(setup) && BooksInv(w) && SlotInv(w, setup.config) && now >= w.clock
    requires OrderOk(o) && Held(w.desk.engine.queue, w.desk.trades)[OrderKey(o)] == 0
    requires |w.desk.engine.queue| + RelevantOpen(w.desk.trades, setup.config, now) + 1 <= setup.config.maxOpenPositions
    requires bank.reserve == AddActive(w.desk.bank.reserve, FamilyOf(o.strategy), o.reserved)
    ensures var w' := w.(desk := w.desk.(bank := bank, engine := Enqueue(w.desk.engine, o, setup.config)),
                         clock := now);
            BooksInv(w') && SlotInv(w', setup.config)
  {
    hide OrderOk, AddActive, RelevantOpen, Held, Conserved;
    var q, ts := w.desk.engine.queue, w.desk.trades;
    EnqueueConserves(w.desk.bank.reserve, q, ts, w.orphaned, o);
    assert q + [o] + [] == q + [o] && q + [] == q;
    HeldAround(q, o, [], ts);
  }

  /** A submission that queues nothing: time passes and the pause may move. */
  ghost predicate OnlyPause(w: World, w': World) {
    && w' == w.(desk := w.desk.(bank := w.desk.bank.(pause := w'.desk.bank.pause)), clock := w'.clock)
    && w.clock <= w'.clock
  }

  /** A one-sided order that was checked, backed by reserve and queued. */
  ghost predicate SingleTaken(w: World, w': World, o: Order, c: Config) {
    var d := w.desk;
    && w' == w.(desk := d.(bank := w'.desk.bank, engine := Enqueue(d.engine, o, c)), clock := w'.clock)
    && w'.desk.bank == d.bank.(pause := w'.desk.bank.pause,
                               reserve := AddActive(d.bank.reserve, FamilyOf(o.strategy), o.reserved))
    && w.clock <= w'.clock && OrderOk(o) && o.group == None
    && |d.engine.queue| + RelevantOpen(d.trades, c, w'.clock) + 1 <= c.maxOpenPositions
    && Held(d.engine.queue, d.trades)[OrderKey(o)] == 0
    && Sizing.WithinCaps(d.bank, FamilyOf(o.strategy), c, o.reserved)
  }

  lemma SingleOutcome(w: World, e: Event, setup: Setup) returns (o: Order)
    requires SetupOk(setup) && BooksInv(w) && e.SubmitSingle? && Legal(w, e, setup)
    ensures var w' := Next(w, e, setup);
            OnlyPause(w, w') || SingleTaken(w, w', o, setup.config)
  {
    hide Executor.SubmitSingle, OrderOk, AddActive, BooksInv, Enqueue, Sizing.WithinCaps, SingleQueueRejection, Held,
      RelevantOpen;
    var d, c := w.desk, setup.config;
    SoundReserve(w);
    SubmitSingleEffect(d, e.signal, e.id, e.window, c, e.now, e.stored);
    var (d', r) := Executor.SubmitSingle(d, e.signal, e.id, e.window, c, e.now, e.stored);
    if r.Queued? {
      o := r.orders[0];
      SingleSlotFree(d, e.signal, e.window, c, e.now, o);
    } else {
      assert OnlyPause(w, Next(w, e, setup));
      o := *;
    }
  }

  /** What an accepted one-sided order was checked for: a free slot and a free position. */
  lemma SingleSlotFree(d: Desk, s: Signal, window: Window, c: Config, now: nat, o: Order)
    requires SingleQueueRejection(d, s, window, c, now).None?
    requires o.market == window.market && o.strategy == s.strategy
    ensures |d.engine.queue| + RelevantOpen(d.trades, c, now) + 1 <= c.maxOpenPositions
    ensures Held(d.engine.queue, d.trades)[OrderKey(o)] == 0
  {
    hide RelevantOpen, Held, SingleQueueRejection;
    SingleQueueExactly(d, s, window, c, now);
  }

  lemma SingleKeepsBooks(w: World, e: Event, setup: Setup)
    requires SetupOk(setup) && BooksInv(w) && SlotInv(w, setup.config)
    requires e.SubmitSingle? && Legal(w, e, setup)
    ensures BooksInv(Next(w, e, setup)) && SlotInv(Next(w, e, setup), setup.config)
  {
    hide Next, Legal, BooksInv, SlotInv, OrderOk, AddActive, Enqueue, Sizing.WithinCaps, Held, RelevantOpen;
    var o := SingleOutcome(w, e, setup);
    var w' := Next(w, e, setup);
    if OnlyPause(w, w') {
      BooksSame(w, w');
      SlotsSame(w, w', setup.config);
    } else {
      QueueOne(w, o, setup, w'.desk.bank, w'.clock);
    }
  }

  lemma SoundReserve(w: World)
    requires BooksInv(w)
    ensures w.desk.bank.reserve.NonNegative()
  {
  }

  /** A spread that was checked, backed by reserve and queued as two legs of a new group, with its quote. */
  ghost predicate SpreadTaken(w: World, w': World, u: Order, n: Order, window: Window, setup: Setup) {
    var d, c := w.desk, setup.config;
    && w' == w.(desk := d.(bank := w'.desk.bank,
                           engine := Enqueue(Enqueue(d.engine.(nextGroup := d.engine.nextGroup + 1), u, c), n, c)),
                clock := w'.clock,
                quotes := w.quotes[(d.engine.session, d.engine.nextGroup) := Quote(window, u.limitPrice, n.limitPrice)])
    && w'.desk.bank == d.bank.(pause := w'.desk.bank.pause,
                               reserve := AddActive(d.bank.reserve, SpreadCapture, u.reserved + n.reserved))
    && w.clock <= w'.clock && OrderOk(u) && OrderOk(n) && Legs(u, n) && u.group == Some(d.engine.nextGroup)
    && u.market == window.market && Listed(window, setup.catalog)
       && QuoteOk(Quote(window, u.limitPrice, n.limitPrice), c)
    && FamilyOf(u.strategy) == SpreadCapture && FamilyOf(n.strategy) == SpreadCapture
    && |d.engine.queue| + RelevantOpen(d.trades, c, w'.clock) + 2 <= c.maxOpenPositions
    && Held(d.engine.queue, d.trades)[OrderKey(u)] == 0 && Held(d.engine.queue, d.trades)[OrderKey(n)] == 0
    && Sizing.WithinCaps(d.bank, SpreadCapture, c, u.reserved + n.reserved)
  }

  lemma SpreadOutcome(w: World, e: Event, setup: Setup) returns (u: Order, n: Order)
    requires SetupOk(setup) && BooksInv(w) && e.SubmitSpread? && Legal(w, e, setup)
    ensures var w' := Next(w, e, setup);
            OnlyPause(w, w') || SpreadTaken(w, w', u, n, e.window, setup)
  {
    hide Executor.SubmitSpread, OrderOk, AddActive, BooksInv, Enqueue, Sizing.WithinCaps, SpreadQueueRejection, Held,
      RelevantOpen,
      QuoteOk, Listed;
    var d, c := w.desk, setup.config;
    SoundReserve(w);
    SubmitSpreadEffect(d, e.signals, e.ids, e.window, c, e.now, e.stored);
    var (d', r) := Executor.SubmitSpread(d, e.signals, e.ids, e.window, c, e.now, e.stored);
    if r.Queued? && r.orders != [] {
      u, n := r.orders[0], r.orders[1];
      SpreadSlotsFree(d, e.signals, e.window, c, e.now, u, n);
    } else {
      assert OnlyPause(w, Next(w, e, setup));
      u, n := *, *;
    }
  }

  lemma SpreadKeepsBooks(w: World, e: Event, setup: Setup)
    requires SetupOk(setup) && BooksInv(w) && SlotInv(w, setup.config)
    requires e.SubmitSpread? && Legal(w, e, setup)
    ensures BooksInv(Next(w, e, setup)) && SlotInv(Next(w, e, setup), setup.config)
  {
    hide Next, Legal, BooksInv, SlotInv, OrderOk, AddActive, Enqueue, Sizing.WithinCaps, Held, RelevantOpen, QuoteOk,
      Listed;
    var u, n := SpreadOutcome(w, e, setup);
    var w' := Next(w, e, setup);
    if OnlyPause(w, w') {
      BooksSame(w, w');
      SlotsSame(w, w', setup.config);
    } else {
      QueuePair(w, u, n, setup, w'.desk.bank, w'.clock);
      var w1 := w'.(quotes := w.quotes);
      BooksSame(w1, w');
      SlotsSame(w1, w', setup.config);
    }
  }

  lemma SlotsSame(w: World, w': World, c: Config)
    requires SlotInv(w, c) && w'.desk == w.desk.(bank := w'.desk.bank) && w'.clock >= w.clock
    ensures SlotInv(w', c)
  {
    hide Accounted, Distinct;
    SlotsLater(w.desk.engine.queue, w.desk.trades, c, w.clock, w'.clock);
  }

  /** The books depend on reserve, queue, trades and orphans only. */
  lemma BooksSame(w: World, w': World)
    requires w'.desk == w.desk.(bank := w'.desk.bank) && w'.desk.bank.reserve == w.desk.bank.reserve
             && w'.orphaned == w.orphaned
    ensures BooksInv(w') <==> BooksInv(w)
  {
    hide Conserved;
  }

  /** What an accepted spread was checked for: two free slots, and neither leg's position taken. */
  lemma SpreadSlotsFree(d: Desk, ss: seq<Signal>, window: Window, c: Config, now: nat, u: Order, n: Order)
    requires SpreadQueueRejection(d, ss, window, c, now).None?
    requires u.market == window.market && n.market == window.market && u.side == Up && n.side == Down
    requires exists i | 0 <= i < |ss| :: ss[i].strategy == u.strategy && ss[i].direction == Up
    requires exists i | 0 <= i < |ss| :: ss[i].strategy == n.strategy && ss[i].direction == Down
    ensures |d.engine.queue| + RelevantOpen(d.trades, c, now) + 2 <= c.maxOpenPositions
    ensures Held(d.engine.queue, d.trades)[OrderKey(u)] == 0 && Held(d.engine.queue, d.trades)[OrderKey(n)] == 0
  {
    hide RelevantOpen, Held, SpreadQueueRejection;
    SpreadQueueExactly(d, ss, window, c, now);
  }

  lemma QueuePair(w: World, u: Order, n: Order, setup: Setup, bank: Bankroll.Bank, now: nat)
    requires SetupOk(setup) && BooksInv(w) && SlotInv(w, setup.config) && now >= w.clock
    requires OrderOk(u) && OrderOk(n) && OrderKey(u) != OrderKey(n)
    requires FamilyOf(u.strategy) == SpreadCapture && FamilyOf(n.strategy) == SpreadCapture
    requires Held(w.desk.engine.queue, w.desk.trades)[OrderKey(u)] == 0
             && Held(w.desk.engine.queue, w.desk.trades)[OrderKey(n)] == 0
    requires |w.desk.engine.queue| + RelevantOpen(w.desk.trades, setup.config, now) + 2 <= setup.config.maxOpenPositions
    requires bank.reserve == AddActive(w.desk.bank.reserve, SpreadCapture, u.reserved + n.reserved)
    ensures var e := w.desk.engine.(nextGroup := w.desk.engine.nextGroup + 1);
            var w' := w.(desk := w.desk.(bank := bank,
                                         engine := Enqueue(Enqueue(e, u, setup.config), n, setup.config)),
                         clock := now);
            BooksInv(w') && SlotInv(w', setup.config)
  {
    hide OrderOk, AddActive, RelevantOpen, Held, Conserved, Distinct;
    var c, d := setup.config, w.desk;
    var w1 := w.(desk := d.(engine := d.engine.(nextGroup := d.engine.nextGroup + 1)));
    var bank1 := bank.(reserve := AddActive(d.bank.reserve, SpreadCapture, u.reserved));
    QueueOne(w1, u, setup, bank1, now);
    var w2 := w1.(desk := w1.desk.(bank := bank1, engine := Enqueue(w1.desk.engine, u, c)), clock := now);
    assert d.engine.queue + [u] + [] == d.engine.queue + [u] && d.engine.queue + [] == d.engine.queue;
    HeldAround(d.engine.queue, u, [], d.trades);
    AddActiveTwice(d.bank.reserve, SpreadCapture, u.reserved, n.reserved);
    QueueOne(w2, n, setup, bank, now);
  }

  // ----- Processing -----

  lemma DueKeeps(w: World, e: Event, setup: Setup)
    requires BooksInv(w) && SlotInv(w, setup.config) && QuoteInv(w, setup)
    requires e.ProcessDue? && Legal(w, e, setup)
    ensures var w' := Next(w, e, setup);
            && BooksInv(w') && SlotInv(w', setup.config)
            && AllQuoted(w'.desk.engine.queue, w'.desk.trades, w.quotes, w.desk.engine.session)
  {
    hide RunBatch, Conserved, Distinct, AllQuoted, WithinSlots, QuoteOk, QuotesListed, Issued, Listed, NoFaults;
    var d, x := w.desk, Context(e.now, e.current, e.books, setup.config);
    var b0 := StartBatch(d, w.orphaned, w.legFills);
    SlotsLater(d.engine.queue, d.trades, setup.config, w.clock, e.now);
    assert b0.remaining + d.engine.queue == d.engine.queue;
    BatchKeeps(b0, d.engine.queue, x, w.quotes, d.engine.session, e.faults, setup.catalog);
    var b := DueBatch(d, x, e.faults, w.orphaned, w.legFills);
    assert b.remaining + [] == b.remaining;
  }

  lemma ReleaseShrinks(r: Reserve, f: Family, amount: real)
    requires r.NonNegative()
    ensures Release(r, f, amount).NonNegative()
    ensures Release(r, f, amount).Committed() <= r.Committed()
  {
  }

  /** A batch only ever gives reserve back. */
  lemma {:induction false} BatchShrinks(b: Batch, todo: seq<Order>, x: Context, faults: seq<Fault>, session: nat)
    requires |faults| == |todo| && b.reserve.NonNegative()
    ensures var b' := RunBatch(b, todo, x, faults, session);
            b'.reserve.NonNegative() && b'.reserve.Committed() <= b.reserve.Committed()
    decreases |todo|
  {
    hide StepOrder;
    if todo != [] {
      StepShrinks(b, todo[0], x, faults[0], session);
      var b1 := StepOrder(b, todo[0], x, faults[0], session);
      if !b1.failed {
        BatchShrinks(b1, todo[1..], x, faults[1..], session);
      }
    }
  }

  lemma StepShrinks(b: Batch, o: Order, x: Context, fault: Fault, session: nat)
    requires b.reserve.NonNegative()
    ensures var b' := StepOrder(b, o, x, fault, session);
            b'.reserve.NonNegative() && b'.reserve.Committed() <= b.reserve.Committed()
  {
    hide Decide, Release, RecordFill, RecordGroup, Cost;
    var f := FamilyOf(o.strategy);
    match Decide(o, x)
    case Defer =>
    case Miss(_, _) => ReleaseShrinks(b.reserve, f, o.reserved);
    case Fill(price, size) =>
      FillWithinLimit(o, x);
      ReleaseShrinks(b.reserve, f, o.reserved - Cost(size, price));
  }

  // ----- Closing, settling, restarting -----

  lemma {:induction false} CloseConserves(r: Reserve, q: seq<Order>, ts: seq<Trade>, orphaned: PerFamily,
                                          market: string, n: nat)
    requires Conserved(r, q, ts, orphaned) && n <= |ts|
    ensures var (r', ts') := CloseUpTo(r, ts, market, n);
            Conserved(r', q, ts', orphaned) && r'.Committed() == r.Committed()
  {
    hide Conserved, Transition;
    if n > 0 {
      CloseConserves(r, q, ts, orphaned, market, n - 1);
      var (r1, ts1) := CloseUpTo(r, ts, market, n - 1);
      if ts[n - 1].window.market == market {
        CloseOneConserves(r1, q, ts1, orphaned, n - 1);
      }
    }
  }

  lemma CloseKeepsBooks(w: World, e: Event, setup: Setup)
    requires BooksInv(w) && SlotInv(w, setup.config)
    requires e.CloseMarket? && Legal(w, e, setup)
    ensures var w' := Next(w, e, setup);
            && BooksInv(w') && SlotInv(w', setup.config)
            && w'.desk.bank.reserve.Committed() == w.desk.bank.reserve.Committed()
            && |w'.desk.trades| == |w.desk.trades|
            && forall i | 0 <= i < |w.desk.trades| ::
                 w'.desk.trades[i] == w.desk.trades[i].(settling := w'.desk.trades[i].settling)
  {
    hide Conserved;
    var ts := w.desk.trades;
    CloseConserves(w.desk.bank.reserve, w.desk.engine.queue, ts, w.orphaned, e.market, |ts|);
    var ts' := CloseUpTo(w.desk.bank.reserve, ts, e.market, |ts|).1;
    SameWindows(ts, ts', w.clock);
    assert Held(w.desk.engine.queue, ts') == Held(w.desk.engine.queue, ts);
  }

  lemma SettleKeepsBooks(w: World, e: Event, setup: Setup)
    requires BooksInv(w) && SlotInv(w, setup.config)
    requires e.Settle? && Legal(w, e, setup)
    ensures var w' := Next(w, e, setup);
            && BooksInv(w') && SlotInv(w', setup.config)
            && w'.desk.bank.reserve.Committed() == w.desk.bank.reserve.Committed() - TradeCost(w.desk.trades[e.index])
  {
    hide Conserved, Release, Held, CountActive, SettlementFee, SettlementPrice, Drawdown.Move, Bankroll.Record, Cost;
    var q, ts, i := w.desk.engine.queue, w.desk.trades, e.index;
    SettleConserves(w.desk.bank.reserve, q, ts, w.orphaned, i);
    SettledDistinct(q, ts, i);
    CountActiveRemove(ts, i, w.clock);
    SettledCost(w.desk.trades[i]);
  }

  lemma SettledCost(t: Trade)
    ensures TradeCost(t) == Cost(t.size, t.entry)
  {
  }

  lemma SettledDistinct(q: seq<Order>, ts: seq<Trade>, i: nat)
    requires Distinct(q, ts) && i < |ts|
    ensures Distinct(q, ts[..i] + ts[i + 1..])
  {
    HeldRemoveTrade(q, ts, i);
    hide Held;
    var rest := ts[..i] + ts[i + 1..];
    forall k
      ensures Held(q, rest)[k] <= 1
    {
      assert Held(q, ts)[k] <= 1;
    }
  }

  lemma RestartKeepsBooks(w: World, e: Event, setup: Setup)
    requires BooksInv(w) && SlotInv(w, setup.config)
    requires e.Restart? && Legal(w, e, setup)
    ensures BooksInv(Next(w, e, setup)) && SlotInv(Next(w, e, setup), setup.config)
  {
    hide Conserved, Distinct, WithinSlots, Bankroll.HydrateAll;
    var ts := w.desk.trades;
    TradesSound(w);
    HydrateConserves(ts, e.now);
    RestartSlots(w.desk.engine.queue, ts, setup.config, w.clock, e.now);
  }

  lemma TradesSound(w: World)
    requires BooksInv(w)
    ensures forall i | 0 <= i < |w.desk.trades| :: TradeOk(w.desk.trades[i])
  {
    hide TradeOk;
  }

  lemma RestartSlots(q: seq<Order>, ts: seq<Trade>, c: Config, before: nat, now: nat)
    requires Distinct(q, ts) && WithinSlots(q, ts, c, before) && before <= now
    ensures Distinct([], Reclassified(ts, now)) && WithinSlots([], Reclassified(ts, now), c, now)
  {
    hide Distinct, TradeKeys, CountActive;
    SameWindows(ts, Reclassified(ts, now), now);
    CountActiveLater(ts, before, now);
    FewerHeld(q, ts, Reclassified(ts, now));
  }

  lemma FewerHeld(q: seq<Order>, ts: seq<Trade>, ts': seq<Trade>)
    requires Distinct(q, ts) && TradeKeys(ts') == TradeKeys(ts)
    ensures Distinct([], ts')
  {
    forall k
      ensures Held([], ts')[k] <= 1
    {
      assert Held(q, ts)[k] <= 1;
    }
  }

  lemma {:induction false} OpenReclassified(ts: seq<Trade>, now: nat, f: Family)
    ensures OpenCost(Reclassified(ts, now), f) == OpenCost(ts, f)
  {
    if ts != [] {
      var n := |ts| - 1;
      OpenReclassified(ts[..n], now, f);
      assert Reclassified(ts, now) == Reclassified(ts[..n], now) + [Reclassify(ts[n], now)];
      assert ts == ts[..n] + [ts[n]];
      OpenPush(ts[..n], ts[n], f);
      OpenPush(Reclassified(ts[..n], now), Reclassify(ts[n], now), f);
      ReclassifiedCost(ts[n], now);
    }
  }

  /** A restart forgets the queue and any orphaned reserve, so committed exposure can only fall. */
  lemma RestartShrinks(w: World, e: Event, setup: Setup)
    requires BooksInv(w)
    requires e.Restart? && Legal(w, e, setup)
    ensures Next(w, e, setup).desk.bank.reserve.Committed() <= w.desk.bank.reserve.Committed()
  {
    hide OpenCost, LiveCost, QueuedCost, Bankroll.HydrateAll, TradeOk, OrderOk;
    var ts, q, r := w.desk.trades, w.desk.engine.queue, w.desk.bank.reserve;
    var r' := Next(w, e, setup).desk.bank.reserve;
    HydrateConserves(ts, e.now);
    forall f
      ensures r'.Family(f) <= r.Family(f)
    {
      assert Balanced(r, q, ts, w.orphaned, f);
      assert Balanced(r', [], Reclassified(ts, e.now), NOTHING, f);
      OpenReclassified(ts, e.now, f);
      QueuedNonNegative(q, f);
      EmptyQueued(f);
      assert w.orphaned.Get(f) >= 0.0;
    }
    CommittedByFamily(r);
    CommittedByFamily(r');
    assert r'.Family(LatencyArb) <= r.Family(LatencyArb);
    assert r'.Family(SpreadCapture) <= r.Family(SpreadCapture);
    assert r'.Family(CalmPersistence) <= r.Family(CalmPersistence);
  }

  lemma EmptyQueued(f: Family)
    ensures QueuedCost([], f) == 0.0
  {
  }

  lemma CommittedByFamily(r: Reserve)
    ensures r.Committed() == r.Family(LatencyArb) + r.Family(SpreadCapture) + r.Family(CalmPersistence)
  {
  }

  /** Books, order accounting, uniqueness and slots survive every event. */
  lemma BooksAndSlotsKept(w: World, e: Event, setup: Setup)
    requires SetupOk(setup) && BooksInv(w) && SlotInv(w, setup.config) && QuoteInv(w, setup) && Legal(w, e, setup)
    ensures BooksInv(Next(w, e, setup)) && SlotInv(Next(w, e, setup), setup.config)
  {
    match e
    case SubmitSingle(_, _, _, _, _) => SingleKeepsBooks(w, e, setup);
    case SubmitSpread(_, _, _, _, _) => SpreadKeepsBooks(w, e, setup);
    case ProcessDue(_, _, _, _) => DueKeeps(w, e, setup);
    case CloseMarket(_) => CloseKeepsBooks(w, e, setup);
    case Settle(_, _) => SettleKeepsBooks(w, e, setup);
    case Correct(_, _) => CorrectKeepsBooks(w, e, setup);
    case Restart(_) => RestartKeepsBooks(w, e, setup);
  }

  lemma CorrectKeepsBooks(w: World, e: Event, setup: Setup)
    requires BooksInv(w) && SlotInv(w, setup.config)
    requires e.Correct? && Legal(w, e, setup)
    ensures BooksInv(Next(w, e, setup)) && SlotInv(Next(w, e, setup), setup.config)
  {
    hide Conserved, Distinct, WithinSlots, Drawdown.Move;
  }

  // ----- Quotes -----

  lemma QuotesGrow(os: seq<Order>, ts: seq<Trade>, quotes: Quotes, session: nat, k: (nat, nat), q: Quote)
    requires AllQuoted(os, ts, quotes, session) && k !in quotes
    ensures AllQuoted(os, ts, quotes[k := q], session)
  {
    forall i | 0 <= i < |os|
      ensures OrderQuoted(os[i], quotes[k := q], session)
    {
      assert OrderQuoted(os[i], quotes, session);
    }
    forall i | 0 <= i < |ts|
      ensures TradeQuoted(ts[i], quotes[k := q])
    {
      assert TradeQuoted(ts[i], quotes);
    }
  }

  lemma QuotedPush(os: seq<Order>, o: Order, ts: seq<Trade>, quotes: Quotes, session: nat)
    requires AllQuoted(os, ts, quotes, session) && OrderQuoted(o, quotes, session)
    ensures AllQuoted(os + [o], ts, quotes, session)
  {
    hide OrderQuoted, TradeQuoted;
  }

  lemma SpreadKeepsQuotes(w: World, e: Event, setup: Setup)
    requires SetupOk(setup) && BooksInv(w) && QuoteInv(w, setup)
    requires e.SubmitSpread? && Legal(w, e, setup)
    ensures QuoteInv(Next(w, e, setup), setup)
  {
    hide Next, Legal, BooksInv, QuoteInv, OrderOk, AddActive, Sizing.WithinCaps, Held, RelevantOpen;
    var u, n := SpreadOutcome(w, e, setup);
    var w' := Next(w, e, setup);
    if OnlyPause(w, w') {
      QuotesSame(w, w', setup);
    } else {
      QuoteAccepted(w, w', u, n, e.window, setup);
    }
  }

  lemma QuotesSame(w: World, w': World, setup: Setup)
    requires QuoteInv(w, setup) && w'.desk == w.desk.(bank := w'.desk.bank) && w'.quotes == w.quotes
    ensures QuoteInv(w', setup)
  {
    hide AllQuoted, QuotesListed, QuoteOk, Issued;
  }

  /** A pair joins the queue together with its quote, under a group number that no quote has. */
  lemma QuoteAccepted(w: World, w': World, u: Order, n: Order, window: Window, setup: Setup)
    requires SetupOk(setup) && QuoteInv(w, setup) && SpreadTaken(w, w', u, n, window, setup)
    ensures QuoteInv(w', setup)
  {
    hide AllQuoted, QuoteOk, Listed, OrderOk, AddActive, Sizing.WithinCaps, Held, RelevantOpen;
    QuotePair(w.desk, w.quotes, u, n, window);
  }

  lemma QuotePair(d: Desk, quotes: Quotes, u: Order, n: Order, window: Window)
    requires AllQuoted(d.engine.queue, d.trades, quotes, d.engine.session)
    requires forall k | k in quotes :: Issued(k, d.engine)
    requires Legs(u, n) && u.group == Some(d.engine.nextGroup) && u.market == window.market
    requires FamilyOf(u.strategy) == SpreadCapture && FamilyOf(n.strategy) == SpreadCapture
    ensures var k := (d.engine.session, d.engine.nextGroup);
            var quotes' := quotes[k := Quote(window, u.limitPrice, n.limitPrice)];
            k !in quotes && AllQuoted(d.engine.queue + [u] + [n], d.trades, quotes', d.engine.session)
  {
    hide AllQuoted;
    var k, q := (d.engine.session, d.engine.nextGroup), Quote(window, u.limitPrice, n.limitPrice);
    assert !Issued(k, d.engine);
    QuotesGrow(d.engine.queue, d.trades, quotes, d.engine.session, k, q);
    QuotedPush(d.engine.queue, u, d.trades, quotes[k := q], k.0);
    QuotedPush(d.engine.queue + [u], n, d.trades, quotes[k := q], k.0);
  }

  lemma SingleKeepsQuotes(w: World, e: Event, setup: Setup)
    requires SetupOk(setup) && BooksInv(w) && QuoteInv(w, setup)
    requires e.SubmitSingle? && Legal(w, e, setup)
    ensures QuoteInv(Next(w, e, setup), setup)
  {
    hide Next, Legal, BooksInv, OrderOk, AddActive, Sizing.WithinCaps, Held, RelevantOpen, QuoteOk, AllQuoted,
      QuotesListed, Issued;
    var o := SingleOutcome(w, e, setup);
    var w' := Next(w, e, setup);
    if OnlyPause(w, w') {
      QuotesSame(w, w', setup);
    } else {
      QuotedPush(w.desk.engine.queue, o, w.desk.trades, w.quotes, w.desk.engine.session);
      IssuedSame(w, w');
    }
  }

  lemma IssuedSame(w: World, w': World)
    requires w'.desk.engine.session == w.desk.engine.session && w'.desk.engine.nextGroup == w.desk.engine.nextGroup
    ensures forall k :: Issued(k, w'.desk.engine) <==> Issued(k, w.desk.engine)
  {
  }

  lemma QuotedRemarked(os: seq<Order>, ts: seq<Trade>, ts': seq<Trade>, quotes: Quotes, session: nat)
    requires AllQuoted(os, ts, quotes, session) && |ts'| == |ts|
    requires forall i | 0 <= i < |ts| :: ts'[i] == ts[i].(settling := ts'[i].settling)
    ensures AllQuoted(os, ts', quotes, session)
  {
    forall i | 0 <= i < |ts|
      ensures TradeQuoted(ts'[i], quotes)
    {
      assert TradeQuoted(ts[i], quotes);
    }
  }

  lemma SettleKeepsQuotes(w: World, e: Event, setup: Setup)
    requires QuoteInv(w, setup) && e.Settle? && Legal(w, e, setup)
    ensures QuoteInv(Next(w, e, setup), setup)
  {
    hide OrderQuoted, TradeQuoted, QuoteOk, QuotesListed, Bankroll.ApplyResult, SettlementFee, SettlementPrice;
  }

  lemma QuotesKept(w: World, e: Event, setup: Setup)
    requires SetupOk(setup) && BooksInv(w) && SlotInv(w, setup.config) && QuoteInv(w, setup) && Legal(w, e, setup)
    ensures QuoteInv(Next(w, e, setup), setup)
  {
    var d := w.desk;
    match e
    case SubmitSingle(_, _, _, _, _) => SingleKeepsQuotes(w, e, setup);
    case SubmitSpread(_, _, _, _, _) => SpreadKeepsQuotes(w, e, setup);
    case ProcessDue(_, _, _, _) => DueKeepsQuotes(w, e, setup);
    case CloseMarket(_) =>
      CloseKeepsBooks(w, e, setup);
      QuotedRemarked(d.engine.queue, d.trades, Next(w, e, setup).desk.trades, w.quotes, d.engine.session);
    case Settle(_, _) => SettleKeepsQuotes(w, e, setup);
    case Correct(_, _) =>
    case Restart(now) => RestartKeepsQuotes(w, e, setup);
  }

  lemma DueKeepsQuotes(w: World, e: Event, setup: Setup)
    requires BooksInv(w) && SlotInv(w, setup.config) && QuoteInv(w, setup)
    requires e.ProcessDue? && Legal(w, e, setup)
    ensures QuoteInv(Next(w, e, setup), setup)
  {
    hide BooksInv, SlotInv, AllQuoted, QuoteOk, QuotesListed, RunBatch;
    DueKeeps(w, e, setup);
  }

  lemma RestartKeepsQuotes(w: World, e: Event, setup: Setup)
    requires QuoteInv(w, setup) && e.Restart? && Legal(w, e, setup)
    ensures QuoteInv(Next(w, e, setup), setup)
  {
    hide QuoteOk, QuotesListed, Bankroll.HydrateAll;
    var d := w.desk;
    QuotedRemarked(d.engine.queue, d.trades, Reclassified(d.trades, e.now), w.quotes, d.engine.session);
  }

  // ----- Legs -----

  lemma LegsKept(w: World, e: Event, setup: Setup)
    requires SetupOk(setup) && BooksInv(w) && LegInv(w) && Legal(w, e, setup)
    ensures LegInv(Next(w, e, setup))
  {
    match e
    case SubmitSingle(_, _, _, _, _) => if !w.faulted { SingleKeepsLegs(w, e, setup); }
    case SubmitSpread(_, _, _, _, _) => if !w.faulted { SpreadKeepsLegs(w, e, setup); }
    case ProcessDue(current, books, faults, now) =>
      hide RunBatch, LegsExact, FinishBatch;
      if !w.faulted && NoFaults(faults) {
        NothingOrphaned(w.desk, Context(now, current, books, setup.config), faults, w.legFills);
        BatchLegsExact(w.desk, Context(now, current, books, setup.config), faults, w.orphaned, w.legFills);
      }
    case CloseMarket(_) =>
    case Settle(_, _) =>
    case Correct(_, _) =>
    case Restart(_) => FreshLegs(w.desk.engine.session + 1);
  }

  lemma NothingOrphaned(d: Desk, x: Context, faults: seq<Fault>, legFills: multiset<nat>)
    requires |faults| == |d.engine.queue| && NoFaults(faults)
    ensures DueBatch(d, x, faults, NOTHING, legFills).orphaned == NOTHING
  {
    hide RunBatch, Decide;
    BatchOrphans(StartBatch(d, NOTHING, legFills), d.engine.queue, x, faults, d.engine.session);
  }

  lemma FreshLegs(session: nat)
    ensures LegsExact(NewEngine(session), multiset{})
  {
    PairedNil(1);
  }

  lemma SingleKeepsLegs(w: World, e: Event, setup: Setup)
    requires SetupOk(setup) && BooksInv(w) && LegsExact(w.desk.engine, w.legFills)
    requires e.SubmitSingle? && Legal(w, e, setup)
    ensures LegsExact(Next(w, e, setup).desk.engine, w.legFills)
  {
    hide Next, Legal, BooksInv, OrderOk, AddActive, Sizing.WithinCaps, Held, RelevantOpen, Enqueue, LegsExact;
    var o := SingleOutcome(w, e, setup);
    if !OnlyPause(w, Next(w, e, setup)) {
      QueueSingleLegs(w.desk.engine, o, setup.config, w.legFills);
    }
  }

  lemma QueueSingleLegs(e: Engine, o: Order, c: Config, fills: multiset<nat>)
    requires LegsExact(e, fills) && o.group.None? && !c.mode.LiveTrading?
    ensures LegsExact(Enqueue(e, o, c), fills)
  {
    hide Paired;
    PairedAppendSingle(e.queue, o, 0, e.nextGroup);
    forall g | Waiting(e.queue + [o], g)
      ensures fills[g] == 0
    {
      WaitingPush(e.queue, [o], g);
    }
  }

  lemma SpreadKeepsLegs(w: World, e: Event, setup: Setup)
    requires SetupOk(setup) && BooksInv(w) && LegsExact(w.desk.engine, w.legFills)
    requires e.SubmitSpread? && Legal(w, e, setup)
    ensures LegsExact(Next(w, e, setup).desk.engine, w.legFills)
  {
    hide Next, Legal, BooksInv, OrderOk, AddActive, Sizing.WithinCaps, Held, RelevantOpen, Enqueue, LegsExact, Legs,
      QuoteOk, Listed;
    var u, n := SpreadOutcome(w, e, setup);
    if !OnlyPause(w, Next(w, e, setup)) {
      QueuePairLegs(w.desk.engine, u, n, setup.config, w.legFills);
    }
  }

  lemma QueuePairLegs(e: Engine, u: Order, n: Order, c: Config, fills: multiset<nat>)
    requires LegsExact(e, fills) && Legs(u, n) && u.group == Some(e.nextGroup) && !c.mode.LiveTrading?
    ensures LegsExact(Enqueue(Enqueue(e.(nextGroup := e.nextGroup + 1), u, c), n, c), fills)
  {
    hide Paired;
    var q := e.queue;
    assert q + [u] + [n] == q + [u, n];
    PairedAppendPair(q, u, n, 0, e.nextGroup);
    forall g | Waiting(q + [u, n], g)
      ensures fills[g] == 0
    {
      WaitingPush(q, [u, n], g);
    }
  }

  // ----- Money -----

  /** A granted reservation leaves what is committed covered and under the ceiling. */
  lemma ReservationCovered(w: World, f: Family, cost: real, bank: Bankroll.Bank, c: Config)
    requires MoneyInv(w, c) && cost > 0.0 && Sizing.WithinCaps(w.desk.bank, f, c, cost)
    requires bank.reserve == AddActive(w.desk.bank.reserve, f, cost)
    requires bank.equity == w.desk.bank.equity && bank.starting == w.desk.bank.starting
    ensures MoneyInv(w.(desk := w.desk.(bank := bank)), c)
  {
    FullFraction(bank.reserve, c);
    hide AddActive, Bankroll.EffectiveReserved, Bankroll.EffectiveForFamily, Bankroll.Share, FractionTarget;
  }

  lemma FullFraction(r: Reserve, c: Config)
    ensures PendingPolicy(c).globalFraction == 1.0 ==> Bankroll.EffectiveReserved(r, c) == r.Committed()
  {
  }

  lemma SingleKeepsMoney(w: World, e: Event, setup: Setup)
    requires SetupOk(setup) && BooksInv(w) && MoneyInv(w, setup.config) && Legal(w, e, setup) && e.SubmitSingle?
    ensures MoneyInv(Next(w, e, setup), setup.config)
  {
    hide Next, Legal, BooksInv, MoneyInv, AddActive, Sizing.WithinCaps, Held, RelevantOpen, Enqueue;
    var o := SingleOutcome(w, e, setup);
    var w' := Next(w, e, setup);
    if OnlyPause(w, w') {
      MoneySame(w, w', setup.config);
    } else {
      ReservationCovered(w, FamilyOf(o.strategy), o.reserved, w'.desk.bank, setup.config);
      MoneySame(w.(desk := w.desk.(bank := w'.desk.bank)), w', setup.config);
    }
  }

  lemma SpreadKeepsMoney(w: World, e: Event, setup: Setup)
    requires SetupOk(setup) && BooksInv(w) && MoneyInv(w, setup.config) && Legal(w, e, setup) && e.SubmitSpread?
    ensures MoneyInv(Next(w, e, setup), setup.config)
  {
    hide Next, Legal, BooksInv, MoneyInv, AddActive, Sizing.WithinCaps, Held, RelevantOpen, Enqueue, Legs, QuoteOk,
      Listed;
    var u, n := SpreadOutcome(w, e, setup);
    var w' := Next(w, e, setup);
    if OnlyPause(w, w') {
      MoneySame(w, w', setup.config);
    } else {
      ReservationCovered(w, SpreadCapture, u.reserved + n.reserved, w'.desk.bank, setup.config);
      MoneySame(w.(desk := w.desk.(bank := w'.desk.bank)), w', setup.config);
    }
  }

  lemma MoneySame(w: World, w': World, c: Config)
    requires MoneyInv(w, c) && w'.feesPaid == w.feesPaid && w'.corrected == w.corrected
    requires var b, b' := w.desk.bank, w'.desk.bank;
             b'.reserve == b.reserve && b'.equity == b.equity && b'.starting == b.starting
    ensures MoneyInv(w', c)
  {
  }

  /** Settling at any outcome takes at most the trade's own cost out of balance plus fees. */
  lemma SettleKeepsMoney(w: World, e: Event, setup: Setup)
    requires BooksInv(w) && SlotInv(w, setup.config) && MoneyInv(w, setup.config)
    requires e.Settle? && Legal(w, e, setup)
    ensures MoneyInv(Next(w, e, setup), setup.config)
  {
    hide Conserved, Release, SettlementFee, Bankroll.Record, Cost, Drawdown.Ratio, Accounted, Distinct, WithinSlots;
    var t := w.desk.trades[e.index];
    SettleKeepsBooks(w, e, setup);
    SettledCost(t);
    PayoutNonNegative(w, e.index, e.winner);
    Fees.FeeNonNegative(t.entry, t.size, WindowFees(t.window, setup.config));
    FeeIs(t, setup.config);
    PositiveCost(w, e.index);
  }

  lemma FeeIs(t: Trade, c: Config)
    ensures SettlementFee(t, c) == Fees.TakerFee(t.entry, t.size, WindowFees(t.window, c))
  {
  }

  lemma PositiveCost(w: World, i: nat)
    requires BooksInv(w) && i < |w.desk.trades|
    ensures TradeCost(w.desk.trades[i]) > 0.0
  {
    assert TradeOk(w.desk.trades[i]);
  }

  lemma PayoutNonNegative(w: World, i: nat, winner: Side)
    requires BooksInv(w) && i < |w.desk.trades|
    ensures Cost(w.desk.trades[i].size, SettlementPrice(w.desk.trades[i], winner)) >= 0.0
  {
    var t := w.desk.trades[i];
    assert TradeOk(t);
    CostMonotone(0.0, 0.0, t.size, SettlementPrice(t, winner));
  }

  lemma MoneyKept(w: World, e: Event, setup: Setup)
    requires SetupOk(setup) && Legal(w, e, setup)
    requires BooksInv(w) && SlotInv(w, setup.config) && MoneyInv(w, setup.config) && EquityInv(w, setup.starting)
    ensures MoneyInv(Next(w, e, setup), setup.config)
  {
    match e
    case SubmitSingle(_, _, _, _, _) => SingleKeepsMoney(w, e, setup);
    case SubmitSpread(_, _, _, _, _) => SpreadKeepsMoney(w, e, setup);
    case ProcessDue(current, books, faults, now) =>
      hide RunBatch, BooksInv, SlotInv;
      SoundReserve(w);
      BatchShrinks(StartBatch(w.desk, w.orphaned, w.legFills), w.desk.engine.queue,
                   Context(now, current, books, setup.config), faults, w.desk.engine.session);
    case CloseMarket(_) => CloseKeepsBooks(w, e, setup);
    case Settle(_, _) => SettleKeepsMoney(w, e, setup);
    case Correct(_, _) => CorrectKeepsMoney(w, e, setup);
    case Restart(_) =>
      hide BooksInv, SlotInv, Bankroll.HydrateAll, Drawdown.Agree, Drawdown.Below;
      RestartShrinks(w, e, setup);
  }

  lemma CorrectKeepsMoney(w: World, e: Event, setup: Setup)
    requires MoneyInv(w, setup.config) && e.Correct? && Legal(w, e, setup)
    ensures MoneyInv(Next(w, e, setup), setup.config)
  {
    hide Drawdown.Move;
  }

  // ----- Equity -----

  lemma MoveKeepsEquity(e: Drawdown.Equity, log: seq<real>, delta: real, starting: real, session: nat, dipped: bool)
    requires log != [] && log[0] == starting && log[|log| - 1] == e.balance && e.balance <= e.highWater
    requires session == 0 ==> Drawdown.Agree(e, log)
    requires !dipped ==> Drawdown.Below(e, log)
    ensures var e', log' := Drawdown.Move(e, delta), log + [e.balance + delta];
            var dipped' := dipped || e.balance + delta < 0.0;
            && log'[0] == starting && log'[|log'| - 1] == e'.balance && e'.balance <= e'.highWater
            && (session == 0 ==> Drawdown.Agree(e', log'))
            && (!dipped' ==> Drawdown.Below(e', log'))
  {
    hide Drawdown.Agree, Drawdown.Below, Drawdown.Ratio;
    if session == 0 { Drawdown.MoveAgrees(e, log, delta); }
    if !dipped && e.balance + delta >= 0.0 { Drawdown.MoveBelow(e, log, delta); }
  }

  lemma EquitySame(w: World, w': World, starting: real)
    requires EquityInv(w, starting) && DrawdownPause.Valid(w'.desk.bank.pause)
    requires w'.desk.bank.equity == w.desk.bank.equity && w'.desk.bank.starting == w.desk.bank.starting
    requires w'.desk.log == w.desk.log && w'.desk.engine.session == w.desk.engine.session && w'.dipped == w.dipped
    ensures EquityInv(w', starting)
  {
    hide Drawdown.Agree, Drawdown.Below;
  }

  lemma SingleKeepsEquity(w: World, e: Event, setup: Setup)
    requires SetupOk(setup) && BooksInv(w) && EquityInv(w, setup.starting) && Legal(w, e, setup) && e.SubmitSingle?
    ensures EquityInv(Next(w, e, setup), setup.starting)
  {
    hide BooksInv, Legal, AddActive, Sizing.WithinCaps, Held, RelevantOpen, Executor.SubmitSingle, Drawdown.Agree,
      Drawdown.Below;
    var o := SingleOutcome(w, e, setup);
    SinglePauseValid(w.desk, e.signal, e.id, e.window, setup.config, e.now, e.stored);
    EquitySame(w, Next(w, e, setup), setup.starting);
  }

  lemma SpreadKeepsEquity(w: World, e: Event, setup: Setup)
    requires SetupOk(setup) && BooksInv(w) && EquityInv(w, setup.starting) && Legal(w, e, setup) && e.SubmitSpread?
    ensures EquityInv(Next(w, e, setup), setup.starting)
  {
    hide BooksInv, AddActive, Sizing.WithinCaps, Held, RelevantOpen, Executor.SubmitSpread, Drawdown.Agree,
      Drawdown.Below,
      QuoteOk, Legs, Listed;
    var u, n := SpreadOutcome(w, e, setup);
    SpreadPauseValid(w.desk, e.signals, e.ids, e.window, setup.config, e.now, e.stored);
    EquitySame(w, Next(w, e, setup), setup.starting);
  }

  lemma SinglePauseValid(d: Desk, s: Signal, id: int, w: Window, c: Config, now: nat, stored: bool)
    requires DrawdownPause.Valid(d.bank.pause)
    ensures DrawdownPause.Valid(Executor.SubmitSingle(d, s, id, w, c, now, stored).0.bank.pause)
  {
    hide SingleQueueRejection, Bankroll.SingleTokens, Release, AddActive, Cost, SizeRejection, Enqueue,
      DrawdownPause.Check;
    DrawdownPause.CheckKeepsValid(d.bank.pause, d.bank.equity.balance, Drawdown.Current(d.bank.equity), c, now);
  }

  lemma SpreadPauseValid(d: Desk, ss: seq<Signal>, ids: seq<int>, w: Window, c: Config, now: nat, stored: bool)
    requires DrawdownPause.Valid(d.bank.pause) && |ids| == |ss|
    ensures DrawdownPause.Valid(Executor.SubmitSpread(d, ss, ids, w, c, now, stored).0.bank.pause)
  {
    hide SpreadQueueRejection, Bankroll.PairUnits, Release, AddActive, Cost, SpreadSizeRejection, Enqueue,
      DrawdownPause.Check,
      FirstIndex, SpreadArrival, Fees.SpreadNetEdge;
    DrawdownPause.CheckKeepsValid(d.bank.pause, d.bank.equity.balance, Drawdown.Current(d.bank.equity), c, now);
  }

  lemma SettleKeepsEquity(w: World, e: Event, setup: Setup)
    requires EquityInv(w, setup.starting) && e.Settle? && Legal(w, e, setup)
    ensures EquityInv(Next(w, e, setup), setup.starting)
  {
    hide Drawdown.Agree, Drawdown.Below, Drawdown.Ratio, SettlementFee, SettlementPrice, Bankroll.Record, Release, Cost;
    var pnl := SettlementPnl(w.desk.trades[e.index], e.winner, setup.config);
    MoveKeepsEquity(w.desk.bank.equity, w.desk.log, pnl, setup.starting, w.desk.engine.session, w.dipped);
  }

  lemma CorrectKeepsEquity(w: World, e: Event, setup: Setup)
    requires EquityInv(w, setup.starting) && e.Correct? && Legal(w, e, setup)
    ensures EquityInv(Next(w, e, setup), setup.starting)
  {
    hide Drawdown.Agree, Drawdown.Below, Drawdown.Ratio;
    MoveKeepsEquity(w.desk.bank.equity, w.desk.log, e.newPnl - e.oldPnl, setup.starting, w.desk.engine.session,
                    w.dipped);
  }

  lemma RestartKeepsEquity(w: World, e: Event, setup: Setup)
    requires EquityInv(w, setup.starting) && e.Restart? && Legal(w, e, setup)
    ensures EquityInv(Next(w, e, setup), setup.starting)
  {
    hide Drawdown.Agree, Drawdown.Below, Bankroll.HydrateAll;
    Drawdown.ReopenBelow(setup.starting, w.desk.log);
  }

  lemma DueKeepsEquity(w: World, e: Event, setup: Setup)
    requires EquityInv(w, setup.starting) && (e.ProcessDue? || e.CloseMarket?) && Legal(w, e, setup)
    ensures EquityInv(Next(w, e, setup), setup.starting)
  {
    hide RunBatch, Drawdown.Agree, Drawdown.Below;
  }

  lemma EquityKept(w: World, e: Event, setup: Setup)
    requires SetupOk(setup) && BooksInv(w) && EquityInv(w, setup.starting) && Legal(w, e, setup)
    ensures EquityInv(Next(w, e, setup), setup.starting)
  {
    hide EquityInv, BooksInv, Legal, Next;
    match e
    case SubmitSingle(_, _, _, _, _) => SingleKeepsEquity(w, e, setup);
    case SubmitSpread(_, _, _, _, _) => SpreadKeepsEquity(w, e, setup);
    case ProcessDue(_, _, _, _) => DueKeepsEquity(w, e, setup);
    case CloseMarket(_) => DueKeepsEquity(w, e, setup);
    case Settle(_, _) => SettleKeepsEquity(w, e, setup);
    case Correct(_, _) => CorrectKeepsEquity(w, e, setup);
    case Restart(_) => RestartKeepsEquity(w, e, setup);
  }

  // ----- All of them -----

  lemma InitBooks(setup: Setup)
    ensures BooksInv(Init(setup))
  {
    hide QueuedCost, OpenCost, LiveCost;
    EmptySound();
    forall f
      ensures Balanced(EMPTY, [], [], NOTHING, f)
    {
      EmptyQueued(f);
      EmptyOpen(f);
    }
  }

  lemma EmptySound()
    ensures Sound(EMPTY, [], [], NOTHING)
  {
  }

  lemma EmptyOpen(f: Family)
    ensures OpenCost([], f) == 0.0 && LiveCost([], f) == 0.0
    ensures EMPTY.Family(f) == 0.0 && EMPTY.active.Get(f) == 0.0 && NOTHING.Get(f) == 0.0
  {
  }

  lemma InitSlots(setup: Setup)
    ensures SlotInv(Init(setup), setup.config)
  {
    assert forall k :: Held([], [])[k] == 0;
  }

  lemma InitQuotes(setup: Setup)
    ensures QuoteInv(Init(setup), setup)
  {
  }

  lemma InitEquity(setup: Setup)
    ensures EquityInv(Init(setup), setup.starting)
  {
    hide Drawdown.Agree, Drawdown.Below;
    var w := Init(setup);
    Drawdown.OpenAgrees(setup.starting);
    Drawdown.AgreeIsBelow(w.desk.bank.equity, w.desk.log);
  }

  lemma InitHolds(setup: Setup)
    requires SetupOk(setup)
    ensures Inv(Init(setup), setup)
  {
    hide BooksInv, SlotInv, QuoteInv, EquityInv, LegsExact;
    InitBooks(setup);
    InitSlots(setup);
    InitQuotes(setup);
    InitEquity(setup);
    FreshLegs(0);
  }

  lemma NextKeeps(w: World, e: Event, setup: Setup)
    requires SetupOk(setup) && Inv(w, setup) && Legal(w, e, setup)
    ensures Inv(Next(w, e, setup), setup)
  {
    hide BooksInv, SlotInv, QuoteInv, LegInv, MoneyInv, EquityInv, Next, Legal;
    BooksAndSlotsKept(w, e, setup);
    QuotesKept(w, e, setup);
    LegsKept(w, e, setup);
    MoneyKept(w, e, setup);
    EquityKept(w, e, setup);
  }

  lemma {:induction false} RunKeeps(w: World, es: seq<Event>, setup: Setup)
    requires SetupOk(setup) && Inv(w, setup) && LegalRun(w, es, setup)
    ensures Inv(After(w, es, setup), setup)
    decreases |es|
  {
    hide Inv, Next, Legal;
    if es != [] {
      NextKeeps(w, es[0], setup);
      RunKeeps(Next(w, es[0], setup), es[1..], setup);
    }
  }
}
