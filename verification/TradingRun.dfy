/** Whole runs of the paper-trading desk: every event, and what each of them keeps. */
module TradingRun {
  import opened Basics
  import opened Settings
  import opened Reserves
  import opened Executor
  import opened Lifecycle
  import opened Ledger
  import opened Positions
  import opened Batches
  import opened Legging
  import opened Submissions
  import Bankroll
  import Drawdown
  import DrawdownPause

  /** What is fixed over a run: configuration, starting balance, and one window per market id. */
  datatype Setup = Setup(config: Config, starting: real, catalog: map<string, Window>)

  /**
   * The desk plus history that no code reads: reserve orphaned by failed trade writes, fees paid,
   * filled spread legs, accepted quotes, and three flags (a storage fault, a settlement
   * correction, a negative balance) that say which promises still apply.
   */
  datatype World = World(
    desk: Desk,
    clock: nat,
    orphaned: PerFamily,
    feesPaid: real,
    legFills: multiset<nat>,
    quotes: Quotes,
    faulted: bool,
    corrected: bool,
    dipped: bool)

  datatype Event =
    | SubmitSingle(signal: Signal, id: int, window: Window, now: nat, stored: bool)
    | SubmitSpread(signals: seq<Signal>, ids: seq<int>, window: Window, now: nat, stored: bool)
    | ProcessDue(current: Option<Window>, books: Books, faults: seq<Fault>, now: nat)
    | CloseMarket(market: string)
    | Settle(index: nat, winner: Side)
    | Correct(oldPnl: real, newPnl: real)
    | Restart(now: nat)

  function Init(setup: Setup): World {
    World(Desk(Bankroll.Open(setup.starting, setup.starting), NewEngine(0), [], [setup.starting]),
          0, NOTHING, 0.0, multiset{}, map[], false, false, false)
  }

  /** An event that can happen next: time does not run backwards, and rows and markets it names exist. */
  ghost predicate Legal(w: World, e: Event, setup: Setup) {
    match e
    case SubmitSingle(_, _, window, now, _) => now >= w.clock && Listed(window, setup.catalog)
    case SubmitSpread(signals, ids, window, now, _) =>
      now >= w.clock && Listed(window, setup.catalog) && |ids| == |signals| && SpreadSignals(signals)
    case ProcessDue(current, _, faults, now) =>
      now >= w.clock && |faults| == |w.desk.engine.queue| && (current.Some? ==> Listed(current.value, setup.catalog))
    case CloseMarket(_) => true
    case Settle(index, _) => index < |w.desk.trades|
    case Correct(_, _) => true
    case Restart(now) => now >= w.clock
  }

  function AddQuote(quotes: Quotes, e: Engine, window: Window, r: Submission): Quotes {
    if r.Queued? && |r.orders| == 2
    then quotes[(e.session, e.nextGroup) := Quote(window, r.orders[0].limitPrice, r.orders[1].limitPrice)]
    else quotes
  }

  ghost function Next(w: World, e: Event, setup: Setup): World
    requires Legal(w, e, setup)
  {
    var c := setup.config;
    match e
    case SubmitSingle(signal, id, window, now, stored) =>
      w.(desk := Executor.SubmitSingle(w.desk, signal, id, window, c, now, stored).0, clock := now)
    case SubmitSpread(signals, ids, window, now, stored) =>
      var (desk, r) := Executor.SubmitSpread(w.desk, signals, ids, window, c, now, stored);
      w.(desk := desk, clock := now, quotes := AddQuote(w.quotes, w.desk.engine, window, r))
    case ProcessDue(current, books, faults, now) =>
      var b := DueBatch(w.desk, Context(now, current, books, c), faults, w.orphaned, w.legFills);
      w.(desk := FinishBatch(w.desk, b), clock := now, orphaned := b.orphaned, legFills := b.legFills,
         faulted := w.faulted || !NoFaults(faults))
    case CloseMarket(market) =>
      w.(desk := Lifecycle.CloseMarket(w.desk, market))
    case Settle(index, winner) =>
      var desk := Lifecycle.Settle(w.desk, index, winner, c);
      w.(desk := desk, feesPaid := w.feesPaid + SettlementFee(w.desk.trades[index], c),
         dipped := w.dipped || desk.bank.equity.balance < 0.0)
    case Correct(oldPnl, newPnl) =>
      var desk := Lifecycle.Correct(w.desk, oldPnl, newPnl);
      w.(desk := desk, corrected := true, dipped := w.dipped || desk.bank.equity.balance < 0.0)
    case Restart(now) =>
      w.(desk := Lifecycle.Restart(w.desk, setup.starting, now), clock := now, orphaned := NOTHING,
         legFills := multiset{}, faulted := false, dipped := false)
  }

  // ----- The invariants -----

  /** Reserve conservation, the active-bucket bound, and well-formed orders and trades. */
  ghost predicate BooksInv(w: World) {
    Conserved(w.desk.bank.reserve, w.desk.engine.queue, w.desk.trades, w.orphaned)
  }

  /** Order accounting, position uniqueness and the slot limit. */
  ghost predicate SlotInv(w: World, c: Config) {
    && Accounted(w.desk.engine.stats, |w.desk.engine.queue|)
    && Distinct(w.desk.engine.queue, w.desk.trades)
    && WithinSlots(w.desk.engine.queue, w.desk.trades, c, w.clock)
  }

  /** Every spread leg, queued or open, traces back to an accepted quote with positive net edge. */
  ghost predicate QuoteInv(w: World, setup: Setup) {
    && AllQuoted(w.desk.engine.queue, w.desk.trades, w.quotes, w.desk.engine.session)
    && QuotesListed(w.quotes, setup.catalog)
    && (forall k | k in w.quotes :: QuoteOk(w.quotes[k], setup.config) && Issued(k, w.desk.engine))
  }

  /** A group number is used once per session: quotes exist only for numbers already given out. */
  ghost predicate Issued(k: (nat, nat), e: Engine) {
    k.0 < e.session || (k.0 == e.session && k.1 < e.nextGroup)
  }

  /** While storage has not failed, the legging counters are exact and no reserve is orphaned. */
  ghost predicate LegInv(w: World) {
    !w.faulted ==> LegsExact(w.desk.engine, w.legFills) && w.orphaned == NOTHING
  }

  /** With the pending reserve fully counted, no corrections and no debt at the start, what is committed is covered. */
  ghost predicate Solvent(w: World, c: Config) {
    PendingPolicy(c).globalFraction == 1.0 && !w.corrected && w.desk.bank.starting >= 0.0 ==>
      w.desk.bank.reserve.Committed() <= w.desk.bank.equity.balance + w.feesPaid
  }

  /** The enforced ceiling bounds raw committed exposure, whatever the pending policy discounts. */
  ghost predicate UnderCeiling(w: World, c: Config) {
    Ceiling(c).Some? ==> w.desk.bank.reserve.Committed() <= Ceiling(c).value
  }

  ghost predicate MoneyInv(w: World, c: Config) {
    w.feesPaid >= 0.0 && Solvent(w, c) && UnderCeiling(w, c)
  }

  /** Bot and agent read the same drawdown from the same log; after a restart the bot reads no more. */
  ghost predicate EquityInv(w: World, starting: real) {
    var e, log := w.desk.bank.equity, w.desk.log;
    && log != [] && log[0] == starting == w.desk.bank.starting && log[|log| - 1] == e.balance
       && e.balance <= e.highWater
    && (w.desk.engine.session == 0 ==> Drawdown.Agree(e, log))
    && (!w.dipped ==> Drawdown.Below(e, log))
    && DrawdownPause.Valid(w.desk.bank.pause)
  }

  ghost predicate Inv(w: World, setup: Setup) {
    && BooksInv(w)
    && SlotInv(w, setup.config)
    && QuoteInv(w, setup)
    && LegInv(w)
    && MoneyInv(w, setup.config)
    && EquityInv(w, setup.starting)
  }

  /** Orders are queued rather than routed to the venue, and an enforced ceiling passed the startup check. */
  ghost predicate SetupOk(setup: Setup) {
    !setup.config.mode.LiveTrading? && CeilingValid(setup.config)
  }

  // ----- Runs -----

  ghost predicate LegalRun(w: World, es: seq<Event>, setup: Setup)
    decreases |es|
  {
    es == [] || (Legal(w, es[0], setup) && LegalRun(Next(w, es[0], setup), es[1..], setup))
  }

  ghost function After(w: World, es: seq<Event>, setup: Setup): World
    requires LegalRun(w, es, setup)
    decreases |es|
  {
    if es == [] then w else After(Next(w, es[0], setup), es[1..], setup)
  }
}
