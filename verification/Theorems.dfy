/** The promises of the money core, each stated over every legal run from a fresh start. */
module Theorems {
  import opened Basics
  import opened Settings
  import opened Reserves
  import opened Executor
  import opened Lifecycle
  import opened Ledger
  import opened Positions
  import opened Batches
  import opened Legging
  import opened TradingRun
  import opened RunInvariants
  import Bankroll
  import Drawdown
  import Fees
  import opened LockedEdge

  /** A legal run from a fresh database under a checked configuration. */
  ghost predicate FreshRun(es: seq<Event>, setup: Setup) {
    SetupOk(setup) && LegalRun(Init(setup), es, setup)
  }

  ghost function Reached(es: seq<Event>, setup: Setup): World
    requires FreshRun(es, setup)
  {
    After(Init(setup), es, setup)
  }

  ghost predicate NoCorrections(es: seq<Event>) {
    forall i | 0 <= i < |es| :: !es[i].Correct?
  }

  ghost predicate NoRestarts(es: seq<Event>) {
    forall i | 0 <= i < |es| :: !es[i].Restart?
  }

  ghost predicate StorageWorks(es: seq<Event>) {
    forall i | 0 <= i < |es| :: es[i].ProcessDue? ==> NoFaults(es[i].faults)
  }

  lemma ReachedInv(es: seq<Event>, setup: Setup)
    requires FreshRun(es, setup)
    ensures Inv(Reached(es, setup), setup)
  {
    hide Inv, LegalRun, After;
    InitHolds(setup);
    RunKeeps(Init(setup), es, setup);
  }

  /** The history flags mean what they say. */
  lemma {:induction false} FlagsFollowEvents(w: World, es: seq<Event>, setup: Setup)
    requires LegalRun(w, es, setup)
    ensures var w' := After(w, es, setup);
            && (NoCorrections(es) ==> w'.corrected == w.corrected)
            && (NoRestarts(es) ==> w'.desk.engine.session == w.desk.engine.session)
            && (StorageWorks(es) && !w.faulted ==> !w'.faulted)
    decreases |es|
  {
    hide Legal, Next, NoFaults;
    if es != [] {
      OneFlag(w, es[0], setup);
      FlagsFollowEvents(Next(w, es[0], setup), es[1..], setup);
    }
  }

  lemma OneFlag(w: World, e: Event, setup: Setup)
    requires Legal(w, e, setup)
    ensures var w' := Next(w, e, setup);
            && (!e.Correct? ==> w'.corrected == w.corrected)
            && (!e.Restart? ==> w'.desk.engine.session == w.desk.engine.session)
            && ((e.ProcessDue? ==> NoFaults(e.faults)) && !w.faulted ==> !w'.faulted)
  {
    hide Bankroll.ReserveSingle, Bankroll.ReserveSpread, RunBatch, Bankroll.HydrateAll, Bankroll.ApplyResult, NoFaults,
      SingleQueueRejection, SpreadQueueRejection, FirstIndex, SizeRejection, SpreadSizeRejection, Fees.SpreadNetEdge,
      Bankroll.ApplyCorrection, SettlementFee;
  }

  // ----- Reserve conservation -----

  /**
   * In every run and for every family, reserved capital is exactly the reserve of queued orders
   * plus the cost of open trades plus what failed trade writes have orphaned; with working storage
   * the last term is zero. The active bucket never exceeds queued orders plus trades still live.
   */
  lemma ReserveConservation(es: seq<Event>, setup: Setup, f: Family)
    requires FreshRun(es, setup)
    ensures var w := Reached(es, setup);
            var r, q, ts := w.desk.bank.reserve, w.desk.engine.queue, w.desk.trades;
            && r.Family(f) == QueuedCost(q, f) + OpenCost(ts, f) + w.orphaned.Get(f)
            && r.active.Get(f) <= QueuedCost(q, f) + LiveCost(ts, f) + w.orphaned.Get(f)
            && (StorageWorks(es) ==> r.Family(f) == QueuedCost(q, f) + OpenCost(ts, f))
  {
    hide LegalRun, After, SlotInv, QuoteInv, MoneyInv, EquityInv, LegsExact, QueuedCost, OpenCost, LiveCost, OrderOk,
      TradeOk;
    ReachedInv(es, setup);
    FlagsFollowEvents(Init(setup), es, setup);
    var w := Reached(es, setup);
    assert Balanced(w.desk.bank.reserve, w.desk.engine.queue, w.desk.trades, w.orphaned, f);
  }

  /** A restart rebuilds the reserve of each family as the cost of its stored open trades, and nothing else. */
  lemma RestartRebuildsReserve(es: seq<Event>, setup: Setup, now: nat, f: Family)
    requires FreshRun(es, setup) && now >= Reached(es, setup).clock
    ensures var w := Reached(es, setup);
            var w' := Next(w, Restart(now), setup);
            && w'.desk.engine.queue == []
            && w'.desk.bank.reserve.Family(f) == OpenCost(w.desk.trades, f)
            && w'.desk.bank.equity.balance == w.desk.bank.equity.balance
  {
    hide LegalRun, After, SlotInv, QuoteInv, MoneyInv, LegInv, QueuedCost, OpenCost, LiveCost, OrderOk, TradeOk,
      Bankroll.HydrateAll, Drawdown.Agree, Drawdown.Below;
    ReachedInv(es, setup);
    var w := Reached(es, setup);
    TradesSound(w);
    HydrateConserves(w.desk.trades, now);
    OpenReclassified(w.desk.trades, now, f);
    EmptyQueued(f);
    var r := Bankroll.HydrateAll(EMPTY, Exposures(w.desk.trades), now);
    assert Balanced(r, [], Reclassified(w.desk.trades, now), NOTHING, f);
  }

  // ----- Solvency and the ceiling -----

  /**
   * When pending reserve counts in full and no settlement is corrected, committed cost never
   * exceeds the balance plus the fees paid, so the balance never falls below minus those fees.
   */
  lemma Solvency(es: seq<Event>, setup: Setup)
    requires FreshRun(es, setup) && NoCorrections(es)
    requires setup.config.pendingGlobalFraction == 1.0 && setup.starting >= 0.0
    ensures var w := Reached(es, setup);
            && w.desk.bank.reserve.Committed() <= w.desk.bank.equity.balance + w.feesPaid
            && w.desk.bank.equity.balance >= -w.feesPaid
  {
    hide LegalRun, After, SlotInv, QuoteInv, LegInv, Drawdown.Agree, Drawdown.Below;
    ReachedInv(es, setup);
    FlagsFollowEvents(Init(setup), es, setup);
    SoundReserve(Reached(es, setup));
  }

  /** An enforced ceiling bounds raw committed exposure at every point of every run, under every policy fraction. */
  lemma CeilingHolds(es: seq<Event>, setup: Setup)
    requires FreshRun(es, setup) && Ceiling(setup.config).Some?
    ensures Reached(es, setup).desk.bank.reserve.Committed() <= Ceiling(setup.config).value
  {
    hide LegalRun, After, SlotInv, QuoteInv, EquityInv, LegInv, BooksInv;
    ReachedInv(es, setup);
  }

  /**
   * Closing a market moves reserve between buckets only: exposure and headroom stay put under every
   * policy fraction.
   */
  lemma CloseKeepsExposure(es: seq<Event>, setup: Setup, market: string)
    requires FreshRun(es, setup)
    ensures var w := Reached(es, setup);
            var w' := Next(w, TradingRun.CloseMarket(market), setup);
            && w'.desk.bank.reserve.Committed() == w.desk.bank.reserve.Committed()
            && Bankroll.Headroom(w'.desk.bank.reserve, setup.config)
               == Bankroll.Headroom(w.desk.bank.reserve, setup.config)
            && forall f :: w'.desk.bank.reserve.Family(f) == w.desk.bank.reserve.Family(f)
  {
    hide LegalRun, After, QuoteInv, MoneyInv, EquityInv, LegInv, BooksInv, SlotInv, Reserve.Committed, CloseUpTo;
    ReachedInv(es, setup);
    var w := Reached(es, setup);
    CloseKeepsBooks(w, TradingRun.CloseMarket(market), setup);
    SoundReserve(w);
    CloseKeepsFamilies(w.desk.bank.reserve, w.desk.trades, market, |w.desk.trades|);
  }

  lemma {:induction false} CloseKeepsFamilies(r: Reserve, ts: seq<Trade>, market: string, n: nat)
    requires r.NonNegative() && n <= |ts|
    ensures var r' := CloseUpTo(r, ts, market, n).0;
            r'.NonNegative() && forall f :: r'.Family(f) == r.Family(f)
  {
    hide Transition;
    if n > 0 {
      CloseKeepsFamilies(r, ts, market, n - 1);
      var t := ts[n - 1];
      TransitionKeepsTotals(CloseUpTo(r, ts, market, n - 1).0, FamilyOf(t.strategy), Cost(t.size, t.entry));
    }
  }

  // ----- Orders and positions -----

  /** Submitted orders are the filled, the missed and the queued ones, whatever storage did. */
  lemma OrdersAccounted(es: seq<Event>, setup: Setup)
    requires FreshRun(es, setup)
    ensures var e := Reached(es, setup).desk.engine;
            e.stats.submitted == e.stats.filled + e.stats.missed + |e.queue|
  {
    hide LegalRun, After, QuoteInv, MoneyInv, EquityInv, LegInv, BooksInv, Distinct, WithinSlots;
    ReachedInv(es, setup);
  }

  /** No two positions share market, strategy and side, and the slot limit holds under both counting policies. */
  lemma PositionsUniqueAndCapped(es: seq<Event>, setup: Setup)
    requires FreshRun(es, setup)
    ensures var w := Reached(es, setup);
            var q, ts := w.desk.engine.queue, w.desk.trades;
            && (forall i, j | 0 <= i < j < |q| :: OrderKey(q[i]) != OrderKey(q[j]))
            && (forall i, j | 0 <= i < j < |ts| :: TradeKey(ts[i]) != TradeKey(ts[j]))
            && (forall i, j | 0 <= i < |q| && 0 <= j < |ts| :: OrderKey(q[i]) != TradeKey(ts[j]))
            && |q| + RelevantOpen(ts, setup.config, w.clock) <= setup.config.maxOpenPositions
  {
    hide LegalRun, After, QuoteInv, MoneyInv, EquityInv, LegInv, BooksInv, RelevantOpen, Held;
    ReachedInv(es, setup);
    var w := Reached(es, setup);
    var q, ts := w.desk.engine.queue, w.desk.trades;
    forall i, j | 0 <= i < j < |q|
      ensures OrderKey(q[i]) != OrderKey(q[j])
    {
      OrdersApart(q, ts, i, j);
    }
    forall i, j | 0 <= i < j < |ts|
      ensures TradeKey(ts[i]) != TradeKey(ts[j])
    {
      TradesApart(q, ts, i, j);
    }
    forall i, j | 0 <= i < |q| && 0 <= j < |ts|
      ensures OrderKey(q[i]) != TradeKey(ts[j])
    {
      OrderTradeApart(q, ts, i, j);
    }
  }

  lemma OrdersApart(q: seq<Order>, ts: seq<Trade>, i: nat, j: nat)
    requires Distinct(q, ts) && i < j < |q|
    ensures OrderKey(q[i]) != OrderKey(q[j])
  {
    var k := OrderKey(q[j]);
    assert q == q[..j] + [q[j]] + q[j + 1..];
    HeldAround(q[..j], q[j], q[j + 1..], ts);
    var rest := q[..j] + q[j + 1..];
    assert rest == rest[..i] + [rest[i]] + rest[i + 1..] && rest[i] == q[i];
    HeldAround(rest[..i], rest[i], rest[i + 1..], ts);
    assert Held(q, ts)[k] <= 1;
  }

  lemma TradesApart(q: seq<Order>, ts: seq<Trade>, i: nat, j: nat)
    requires Distinct(q, ts) && i < j < |ts|
    ensures TradeKey(ts[i]) != TradeKey(ts[j])
  {
    var k := TradeKey(ts[j]);
    HeldRemoveTrade(q, ts, j);
    var rest := ts[..j] + ts[j + 1..];
    assert rest[i] == ts[i];
    HeldRemoveTrade(q, rest, i);
    assert Held(q, ts)[k] <= 1;
  }

  lemma OrderTradeApart(q: seq<Order>, ts: seq<Trade>, i: nat, j: nat)
    requires Distinct(q, ts) && i < |q| && j < |ts|
    ensures OrderKey(q[i]) != TradeKey(ts[j])
  {
    var k := TradeKey(ts[j]);
    HeldRemoveTrade(q, ts, j);
    assert q == q[..i] + [q[i]] + q[i + 1..];
    HeldAround(q[..i], q[i], q[i + 1..], ts[..j] + ts[j + 1..]);
    assert Held(q, ts)[k] <= 1;
  }

  // ----- Spreads -----

  /** A new spread never reuses a group number of its session. */
  lemma GroupNumbersFresh(es: seq<Event>, setup: Setup)
    requires FreshRun(es, setup)
    ensures var w := Reached(es, setup);
            (w.desk.engine.session, w.desk.engine.nextGroup) !in w.quotes
  {
    hide LegalRun, After, SlotInv, MoneyInv, EquityInv, LegInv, BooksInv, AllQuoted, QuotesListed, QuoteOk;
    ReachedInv(es, setup);
    var e := Reached(es, setup).desk.engine;
    assert !Issued((e.session, e.nextGroup), e);
  }

  /** With working storage both counters equal the number of groups with exactly one filled leg. */
  lemma LeggingExact(es: seq<Event>, setup: Setup)
    requires FreshRun(es, setup) && StorageWorks(es)
    ensures var w := Reached(es, setup);
            && Paired(w.desk.engine.queue, 0, w.desk.engine.nextGroup)
            && w.desk.engine.stats.legging == |OneLegged(w.legFills)|
            && w.desk.engine.stats.residual == |OneLegged(w.legFills)|
  {
    hide LegalRun, After, SlotInv, MoneyInv, EquityInv, QuoteInv, BooksInv, Paired, OneLegged;
    ReachedInv(es, setup);
    FlagsFollowEvents(Init(setup), es, setup);
  }

  /** Two open trades that are the legs of one spread. */
  ghost predicate SamePair(t: Trade, u: Trade) {
    t.group.Some? && t.group == u.group && t.session == u.session
  }

  /** Two open legs of one spread are on opposite sides of one market, at or below the quoted asks. */
  lemma PairIsOpposed(w: World, setup: Setup, i: nat, j: nat)
    requires Inv(w, setup) && i < j < |w.desk.trades| && SamePair(w.desk.trades[i], w.desk.trades[j])
    ensures var t, u := w.desk.trades[i], w.desk.trades[j];
            && t.side != u.side && t.window == u.window
            && (t.session, t.group.value) in w.quotes
            && var q := w.quotes[(t.session, t.group.value)];
               QuoteOk(q, setup.config) && q.window == t.window && t.entry <= q.Price(t.side)
                 && u.entry <= q.Price(u.side)
    ensures TradeOk(w.desk.trades[i]) && TradeOk(w.desk.trades[j])
  {
    hide MoneyInv, EquityInv, LegInv, QuoteOk, QuotesListed, Accounted, WithinSlots, OrderOk, TradeOk, Distinct,
      OrderQuoted, Balanced;
    assert TradeQuoted(w.desk.trades[i], w.quotes) && TradeQuoted(w.desk.trades[j], w.quotes);
    TradesApart(w.desk.engine.queue, w.desk.trades, i, j);
  }

  /**
   * In every run, if both legs of a spread are open in equal size and the market's fee is safe
   * (no fee, exponent at most 1, or a rate below the exponent's bound), settling them raises the
   * balance whichever side wins.
   */
  lemma LockedSpreadProfit(es: seq<Event>, setup: Setup, i: nat, j: nat, winner: Side)
    requires FreshRun(es, setup)
    requires i < j < |Reached(es, setup).desk.trades|
    requires var ts := Reached(es, setup).desk.trades;
             SamePair(ts[i], ts[j]) && ts[i].size == ts[j].size && SafeFee(WindowFees(ts[i].window, setup.config))
    ensures var w := Reached(es, setup);
            var w1 := Next(w, Settle(j, winner), setup);
            i < |w1.desk.trades| &&
            var w2 := Next(w1, Settle(i, winner), setup);
            w2.desk.bank.equity.balance > w.desk.bank.equity.balance
  {
    hide LegalRun, After, Inv, TradeOk, QuoteOk, SafeFee;
    ReachedInv(es, setup);
    var w := Reached(es, setup);
    PairIsOpposed(w, setup, i, j);
    SettleBoth(w, i, j, winner, setup);
    PairProfit(w.desk.trades[i], w.desk.trades[j], w.quotes[(w.desk.trades[i].session, w.desk.trades[i].group.value)],
               winner, setup.config);
  }

  lemma SettleBoth(w: World, i: nat, j: nat, winner: Side, setup: Setup)
    requires i < j < |w.desk.trades|
    ensures var w1 := Next(w, Settle(j, winner), setup);
            i < |w1.desk.trades| &&
            var w2 := Next(w1, Settle(i, winner), setup);
            w2.desk.bank.equity.balance == w.desk.bank.equity.balance
              + SettlementPnl(w.desk.trades[i], winner, setup.config)
              + SettlementPnl(w.desk.trades[j], winner, setup.config)
  {
    hide SettlementFee, SettlementPrice, Drawdown.Ratio, Bankroll.Record, Release, Cost;
  }

  lemma PairProfit(t: Trade, u: Trade, q: Quote, winner: Side, c: Config)
    requires TradeOk(t) && TradeOk(u) && t.size == u.size && t.side != u.side && t.window == u.window == q.window
    requires QuoteOk(q, c) && t.entry <= q.Price(t.side) && u.entry <= q.Price(u.side)
    requires SafeFee(WindowFees(q.window, c))
    ensures SettlementPnl(t, winner, c) + SettlementPnl(u, winner, c) > 0.0
  {
    hide Fees.TakerFee, WindowFees, Fees.SpreadNetEdge, SafeFee;
    var up, down := if t.side == Up then t else u, if t.side == Up then u else t;
    LockedProfit(q.up, q.down, up.entry, down.entry, t.size, winner == Up, WindowFees(q.window, c));
    PnlIs(t, winner, c);
    PnlIs(u, winner, c);
  }

  lemma PnlIs(t: Trade, winner: Side, c: Config)
    ensures SettlementPnl(t, winner, c) == Fees.TradePnl(t.entry, t.size, t.side == winner, WindowFees(t.window, c))
  {
    hide Fees.TakerFee, WindowFees;
  }

  // ----- Drawdown -----

  /** From a fresh database, through any results and corrections, the bot's peak drawdown is the agent's. */
  lemma DrawdownAgreement(es: seq<Event>, setup: Setup)
    requires FreshRun(es, setup) && NoRestarts(es)
    ensures var d := Reached(es, setup).desk;
            d.bank.equity.peak == Drawdown.MaxDrawdown(d.log)
  {
    hide LegalRun, After, SlotInv, MoneyInv, QuoteInv, BooksInv, LegInv, Drawdown.MaxDrawdown, Drawdown.Below;
    ReachedInv(es, setup);
    FlagsFollowEvents(Init(setup), es, setup);
  }

  /** After restarts the bot reports at most the agent's value, as long as its balance has stayed non-negative since. */
  lemma DrawdownAfterRestart(es: seq<Event>, setup: Setup)
    requires FreshRun(es, setup) && !Reached(es, setup).dipped
    ensures var d := Reached(es, setup).desk;
            d.bank.equity.peak <= Drawdown.MaxDrawdown(d.log)
  {
    hide LegalRun, After, SlotInv, MoneyInv, QuoteInv, BooksInv, LegInv, Drawdown.MaxDrawdown, Drawdown.Agree;
    ReachedInv(es, setup);
  }
}
