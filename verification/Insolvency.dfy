/** Why solvency needs the pending reserve to count in full: a run that overcommits under every discount. */
module Insolvency {
  import opened Basics
  import opened Settings
  import opened Reserves
  import opened Executor
  import opened TradingRun
  import opened Theorems
  import Bankroll
  import Batches
  import Drawdown
  import Fees
  import Lifecycle

  /** A permissive configuration that counts the fraction `g` of pending reserve. */
  function Discounting(g: real, balance: real): Config {
    Config(1.0, None, None, None, 1.0, balance, 0.0, 0.0, 1.0, 1.0, 0, 0.0, 0.5, 0.5, 20, 0.0, 30,
           0.0, g, false, Paper, false, 0.0, 0.0, 10, 0, 0, 0.5, 0.5, 0.0, 1, false)
  }

  /** A market that charges no fee. */
  function Free(market: string): Window {
    Window(market, 0, None, None, Fees.FeeProfile(Some(false), None, false))
  }

  function Quarter(side: Side): Signal {
    Signal(0, Known(SpreadCapture), side, 0.25, 0.25, 1.0)
  }

  function Leg(side: Side, id: int, market: string, group: nat, size: real): Order {
    Order(id, 0, market, Known(SpreadCapture), side, 0, 0.25, 0.25, size, Cost(size, 0.25), Some(group))
  }

  function Filled(o: Order): Trade {
    BuildTrade(o, Free(o.market), 0.25, o.size, 0)
  }

  function Deep(size: real): Books {
    Books(Some(Book(0.25, size, 0, 0)), Some(Book(0.25, size, 0, 0)))
  }

  function Markets(g: real, balance: real): Setup {
    Setup(Discounting(g, balance), balance, map["first" := Free("first"), "second" := Free("second")])
  }

  function Spread(market: string): Event {
    SubmitSpread([Quarter(Up), Quarter(Down)], [0, 1], Free(market), 0, true)
  }

  /** Buy a pair with everything that is free, close its market, and buy another pair. */
  function BuyTwice(size: real): seq<Event> {
    [Spread("first"), ProcessDue(Some(Free("first")), Deep(size), [NoFault, NoFault], 0),
     TradingRun.CloseMarket("first"), Spread("second")]
  }

  /**
   * For every fraction below 1 some fresh run, with working storage, no correction and no fee,
   * commits more than the balance. So a policy keeps every run solvent if and only if its global
   * fraction is 1.
   */
  lemma DiscountBreaksSolvency(g: real) returns (setup: Setup, es: seq<Event>)
    requires 0.0 <= g < 1.0
    ensures setup.config.pendingGlobalFraction == g && PolicyValid(PendingPolicy(setup.config)) && setup.starting > 0.0
    ensures FreshRun(es, setup) && NoCorrections(es) && StorageWorks(es)
    ensures var w := Reached(es, setup);
            w.desk.bank.reserve.Committed() > w.desk.bank.equity.balance + w.feesPaid
  {
    hide LegalRun, After, Next, Legal;
    var balance := 2.0 / (1.0 - g);
    BalanceFor(g, balance);
    var k := (balance / 0.5).Floor;
    var free := balance - Bankroll.Share(Pairs(k), g);
    FreeAmount(g, balance, k);
    setup, es := Markets(g, balance), BuyTwice(k as real);
    var w0 := Init(setup);
    FirstBuy(g, balance, k);
    var w1 := Next(w0, es[0], setup);
    BothFill(w1, g, balance, k);
    var w2 := Next(w1, es[1], setup);
    BothClose(w2, g, balance, k);
    var w3 := Next(w2, es[2], setup);
    SecondBuy(w3, g, balance, k, free);
    FourSteps(w0, es, setup);
  }

  /** Cost of `k` pairs at 0.25 + 0.25. */
  function Pairs(k: int): real {
    k as real * 0.5
  }

  lemma BalanceFor(g: real, balance: real)
    requires 0.0 <= g < 1.0 && balance == 2.0 / (1.0 - g)
    ensures balance - g * balance == 2.0 && balance >= 2.0
  {
    DivMul(2.0, 1.0 - g);
    assert balance * (1.0 - g) == balance - g * balance;
    if balance < 2.0 {
      if balance <= 0.0 { MulLe(balance, 0.0, 1.0 - g); } else { MulLe(0.0, g, balance); }
    }
  }

  /** The discount leaves at least 2 of the balance free to be committed a second time. */
  lemma FreeAmount(g: real, balance: real, k: int)
    requires 0.0 <= g < 1.0 && balance - g * balance == 2.0 && balance >= 2.0 && k == (balance / 0.5).Floor
    ensures k >= 1 && balance - 0.5 < Pairs(k) <= balance
    ensures 2.0 <= balance - Bankroll.Share(Pairs(k), g) <= balance
  {
    MulLe(Pairs(k), balance, g);
    MulLe(0.0, Pairs(k), g);
  }

  /** Under the permissive configuration a reservation takes every whole pair that fits in what is free. */
  lemma ReserveAll(b: Bankroll.Bank, c: Config, free: real)
    requires b.equity.balance >= 2.0 && c == Discounting(c.pendingGlobalFraction, b.equity.balance)
    requires b == Bankroll.Open(b.equity.balance, b.equity.balance).(reserve := b.reserve)
    requires free == b.equity.balance - Bankroll.EffectiveReserved(b.reserve, c)
    requires 2.0 <= free <= b.equity.balance
    ensures var k := (free / 0.5).Floor;
            Bankroll.ReserveSpread(b, 0.25, 0.25, SpreadCapture, c, 0)
              == (b.(reserve := AddActive(b.reserve, SpreadCapture, Pairs(k))), k as real)
  {
    var k := (free / 0.5).Floor;
    assert Bankroll.CanTrade(b, c, 0) == (true, b) by {
      assert Drawdown.Current(b.equity) == 0.0;
    }
    WholeBalance(b.equity.balance);
    assert Bankroll.Budget(b, SpreadCapture, c) == free by { hide Bankroll.EffectiveReserved, Bankroll.Share; }
    assert Bankroll.Available(b, SpreadCapture, c) == free by { hide Bankroll.EffectiveReserved, Bankroll.Budget; }
    hide Bankroll.Available;
    assert Bankroll.PairUnits(b, 0.25, 0.25, SpreadCapture, c) == k as real;
    assert Cost(k as real, 0.25 + 0.25) == Pairs(k);
  }

  lemma WholeBalance(balance: real)
    ensures Bankroll.Share(balance, 1.0) == balance
  {
  }

  /** Nothing but the bankroll stands between these signals and the queue. */
  lemma PairAccepted(d: Desk, market: string, c: Config, balance: real, bank: Bankroll.Bank, units: real)
    requires c == Discounting(c.pendingGlobalFraction, balance) && units > 0.0
    requires d.engine.queue == [] && |d.trades| <= 2
    requires forall i | 0 <= i < |d.trades| :: d.trades[i].window.market != market
    requires Bankroll.ReserveSpread(d.bank, 0.25, 0.25, SpreadCapture, c, 0) == (bank, units)
    ensures var (d', r) := Executor.SubmitSpread(d, [Quarter(Up), Quarter(Down)], [0, 1], Free(market), c, 0, true);
            var n := d.engine.nextGroup;
            && d'.bank == bank && d'.trades == d.trades
            && d'.engine.session == d.engine.session
            && d'.engine.queue == [Leg(Up, 0, market, n, units), Leg(Down, 1, market, n, units)]
            && r == Queued(d'.engine.queue)
  {
    hide Bankroll.ReserveSpread, SpreadQueueRejection, FirstIndex, SpreadArrival, Fees.SpreadNetEdge, WindowFees,
      SpreadSizeRejection, Discounting, Cost;
    RoomForPair(d, market, c, balance);
    PairTimes(c, balance);
    PairPasses(market, c, balance, units);
  }

  lemma RoomForPair(d: Desk, market: string, c: Config, balance: real)
    requires c == Discounting(c.pendingGlobalFraction, balance)
    requires d.engine.queue == [] && |d.trades| <= 2
    requires forall i | 0 <= i < |d.trades| :: d.trades[i].window.market != market
    ensures SpreadQueueRejection(d, [Quarter(Up), Quarter(Down)], Free(market), c, 0).None?
  {
    CountAtMost(d.trades, 0);
  }

  lemma PairTimes(c: Config, balance: real)
    requires c == Discounting(c.pendingGlobalFraction, balance)
    ensures var ss := [Quarter(Up), Quarter(Down)];
            FirstIndex(ss, Up) == Some(0) && FirstIndex(ss, Down) == Some(1) && SpreadArrival(ss, c, 0) == 0
  {
    var ss := [Quarter(Up), Quarter(Down)];
    assert ss[0].direction == Up && ss[1].direction == Down;
    assert ss[..1] == [Quarter(Up)] && [Quarter(Up)][..0] == [];
    assert LatestArrival([], c) == 0 && LatestArrival([Quarter(Up)], c) == 0;
  }

  lemma PairPasses(market: string, c: Config, balance: real, units: real)
    requires c == Discounting(c.pendingGlobalFraction, balance) && units > 0.0
    ensures Fees.SpreadNetEdge(0.25, 0.25, 1.0, WindowFees(Free(market), c)) > 0.0
    ensures SpreadSizeRejection(units, 0.25, 0.25, 0.0, c.minBetUsd).None?
    ensures c.mode == Paper
  {
    CostMonotone(0.0, 0.25, units, 0.25);
    assert SpreadSizeRejection(units, 0.25, 0.25, 0.0, c.minBetUsd).None? by { hide Cost; }
    NoFee(market, c, balance);
    assert Fees.SpreadNetEdge(0.25, 0.25, 1.0, WindowFees(Free(market), c)) > 0.0 by {
      hide WindowFees, Fees.Pow, Cost;
    }
  }

  lemma NoFee(market: string, c: Config, balance: real)
    requires c == Discounting(c.pendingGlobalFraction, balance)
    ensures WindowFees(Free(market), c).rate == 0.0
  {
  }

  lemma {:induction false} CountAtMost(trades: seq<Trade>, now: nat)
    ensures CountActive(trades, now) <= |trades|
  {
    if trades != [] { CountAtMost(trades[..|trades| - 1], now); }
  }

  /** The world after the first pair is queued. */
  ghost predicate Bought(w: World, balance: real, k: int) {
    && w.clock == 0 && w.feesPaid == 0.0 && w.desk.engine.session == 0
    && w.desk.bank == Bankroll.Open(balance, balance).(reserve := AddActive(EMPTY, SpreadCapture, Pairs(k)))
    && w.desk.trades == []
    && w.desk.engine.queue == [Leg(Up, 0, "first", 1, k as real), Leg(Down, 1, "first", 1, k as real)]
  }

  /** A process that has just started on a database without trades. */
  ghost predicate Clean(w: World, balance: real, session: nat) {
    && w.clock == 0 && w.feesPaid == 0.0 && w.desk.engine == NewEngine(session)
    && w.desk.bank == Bankroll.Open(balance, balance) && w.desk.trades == []
  }

  lemma CleanBuy(w: World, market: string, session: nat, g: real, balance: real, k: int)
    requires Clean(w, balance, session) && balance >= 2.0 && k == (balance / 0.5).Floor >= 1
    requires market in Markets(g, balance).catalog && Markets(g, balance).catalog[market] == Free(market)
    ensures var setup := Markets(g, balance);
            && Legal(w, Spread(market), setup)
            && var w' := Next(w, Spread(market), setup);
               && w'.clock == 0 && w'.feesPaid == 0.0 && w'.desk.engine.session == session && w'.desk.trades == []
               && w'.desk.bank == w.desk.bank.(reserve := AddActive(EMPTY, SpreadCapture, Pairs(k)))
               && w'.desk.engine.queue == [Leg(Up, 0, market, 1, k as real), Leg(Down, 1, market, 1, k as real)]
               && w'.quotes == w.quotes[(session, 1) := Batches.Quote(Free(market), 0.25, 0.25)]
  {
    hide Bankroll.ReserveSpread, Executor.SubmitSpread, Discounting, AddActive, Bankroll.EffectiveReserved;
    var setup := Markets(g, balance);
    var c := setup.config;
    NothingReserved(c);
    Configured(g, balance);
    ReserveAll(w.desk.bank, c, balance);
    PairAccepted(w.desk, market, c, balance, w.desk.bank.(reserve := AddActive(EMPTY, SpreadCapture, Pairs(k))),
                 k as real);
    SpreadListed(w, market, setup);
  }

  lemma FirstBuy(g: real, balance: real, k: int)
    requires balance >= 2.0 && k == (balance / 0.5).Floor >= 1
    ensures var setup := Markets(g, balance);
            Legal(Init(setup), Spread("first"), setup) && Bought(Next(Init(setup), Spread("first"), setup), balance, k)
  {
    hide Legal, Next, AddActive, Leg, Discounting;
    CleanBuy(Init(Markets(g, balance)), "first", 0, g, balance, k);
  }

  lemma NothingReserved(c: Config)
    ensures Bankroll.EffectiveReserved(EMPTY, c) == 0.0
  {
  }

  lemma Configured(g: real, balance: real)
    ensures Discounting(g, balance).pendingGlobalFraction == g
  {
  }

  lemma SpreadListed(w: World, market: string, setup: Setup)
    requires w.clock == 0 && market in setup.catalog && setup.catalog[market] == Free(market)
    ensures Legal(w, Spread(market), setup)
  {
    assert forall i | 0 <= i < 2 :: FamilyOf([Quarter(Up), Quarter(Down)][i].strategy) == SpreadCapture;
  }

  /** The world after both legs are filled at their limit. */
  ghost predicate Holding(w: World, balance: real, k: int) {
    && w.clock == 0 && w.feesPaid == 0.0 && w.desk.engine.queue == []
    && w.desk.bank == Bankroll.Open(balance, balance).(reserve := AddActive(EMPTY, SpreadCapture, Pairs(k)))
    && w.desk.trades == [Filled(Leg(Up, 0, "first", 1, k as real)), Filled(Leg(Down, 1, "first", 1, k as real))]
  }

  lemma LegFills(side: Side, id: int, k: int, c: Config)
    requires k >= 1 && c == Discounting(c.pendingGlobalFraction, c.maxPositionUsd)
    ensures Decide(Leg(side, id, "first", 1, k as real), Context(0, Some(Free("first")), Deep(k as real), c))
            == Fill(0.25, k as real)
  {
    CostMonotone(0.0, 0.25, k as real, 0.25);
  }

  /** A fill at the limit price and in full keeps the whole reserve for the trade. */
  lemma FullFill(b: Batch, o: Order, x: Context)
    requires !b.failed && x.window == Some(Free(o.market)) && o.reserved == Cost(o.size, 0.25)
    requires Decide(o, x) == Fill(0.25, o.size)
    ensures var b' := StepOrder(b, o, x, NoFault, 0);
            !b'.failed && b'.reserve == b.reserve && b'.trades == b.trades + [Filled(o)] && b'.remaining == b.remaining
  {
    hide Decide, Release, Cost;
  }

  lemma BothFill(w: World, g: real, balance: real, k: int)
    requires Bought(w, balance, k) && k >= 1
    ensures var setup := Markets(g, balance);
            var e := BuyTwice(k as real)[1];
            Legal(w, e, setup) && Holding(Next(w, e, setup), balance, k)
  {
    hide StepOrder, AddActive, Decide;
    var c := Discounting(g, balance);
    var x := Context(0, Some(Free("first")), Deep(k as real), c);
    var u, n := Leg(Up, 0, "first", 1, k as real), Leg(Down, 1, "first", 1, k as real);
    LegFills(Up, 0, k, c);
    LegFills(Down, 1, k, c);
    var b0 := StartBatch(w.desk, w.orphaned, w.legFills);
    var b1 := StepOrder(b0, u, x, NoFault, 0);
    var b2 := StepOrder(b1, n, x, NoFault, 0);
    FullFill(b0, u, x);
    FullFill(b1, n, x);
    assert [u, n][1..] == [n] && [n][1..] == [] && [NoFault, NoFault][1..] == [NoFault] && [NoFault][1..] == [];
    assert RunBatch(b2, [], x, [], 0) == b2;
    assert RunBatch(b1, [n], x, [NoFault], 0) == b2;
    assert DueBatch(w.desk, x, [NoFault, NoFault], w.orphaned, w.legFills) == b2;
  }

  /** The world after the first market has closed: the whole reserve is pending settlement. */
  ghost predicate Awaiting(w: World, balance: real, k: int) {
    && w.clock == 0 && w.feesPaid == 0.0 && w.desk.engine.queue == []
    && w.desk.bank == Bankroll.Open(balance, balance).(reserve := Reserve(NOTHING, PerFamily(0.0, Pairs(k), 0.0)))
    && |w.desk.trades| == 2 && forall i | 0 <= i < 2 :: w.desk.trades[i].window.market == "first"
  }

  lemma BothClose(w: World, g: real, balance: real, k: int)
    requires Holding(w, balance, k) && k >= 1
    ensures var setup := Markets(g, balance);
            var e := TradingRun.CloseMarket("first");
            Legal(w, e, setup) && Awaiting(Next(w, e, setup), balance, k)
  {
    hide Discounting;
    var r, ts, x := w.desk.bank.reserve, w.desk.trades, Cost(k as real, 0.25);
    assert x + x == Pairs(k) && x >= 0.0;
    assert Lifecycle.CloseUpTo(r, ts, "first", 1).0 == Transition(r, SpreadCapture, x) by {
      assert Lifecycle.CloseUpTo(r, ts, "first", 0) == (r, ts);
    }
    assert Lifecycle.CloseUpTo(r, ts, "first", 2).0 == Transition(Transition(r, SpreadCapture, x), SpreadCapture, x);
    HalvesMove(x);
  }

  lemma HalvesMove(x: real)
    requires x >= 0.0
    ensures Transition(Transition(AddActive(EMPTY, SpreadCapture, x + x), SpreadCapture, x), SpreadCapture, x)
         == Reserve(NOTHING, PerFamily(0.0, x + x, 0.0))
  {
  }

  lemma SecondBuy(w: World, g: real, balance: real, k: int, free: real)
    requires Awaiting(w, balance, k) && balance >= 2.0 && balance - 0.5 < Pairs(k)
    requires free == balance - Bankroll.Share(Pairs(k), g) && 2.0 <= free <= balance
    ensures var setup := Markets(g, balance);
            Legal(w, Spread("second"), setup) &&
            var w' := Next(w, Spread("second"), setup);
            w'.desk.bank.reserve.Committed() > w'.desk.bank.equity.balance + w'.feesPaid
  {
    hide Bankroll.ReserveSpread, Executor.SubmitSpread, Discounting, AddQuote, AddActive, Leg,
      Bankroll.EffectiveReserved;
    var setup := Markets(g, balance);
    var c, r, m := setup.config, w.desk.bank.reserve, (free / 0.5).Floor;
    Configured(g, balance);
    PendingCounts(Pairs(k), g, c);
    ReserveAll(w.desk.bank, c, free);
    PairAccepted(w.desk, "second", c, balance, w.desk.bank.(reserve := AddActive(r, SpreadCapture, Pairs(m))),
                 m as real);
    SpreadListed(w, "second", setup);
    Totals(Pairs(k), Pairs(m));
  }

  lemma PendingCounts(x: real, g: real, c: Config)
    requires c.pendingGlobalFraction == g
    ensures Bankroll.EffectiveReserved(Reserve(NOTHING, PerFamily(0.0, x, 0.0)), c) == Bankroll.Share(x, g)
  {
  }

  lemma Totals(x: real, y: real)
    ensures AddActive(Reserve(NOTHING, PerFamily(0.0, x, 0.0)), SpreadCapture, y).Committed() == x + y
  {
  }

  lemma FourSteps(w: World, es: seq<Event>, setup: Setup)
    requires |es| == 4
    requires Legal(w, es[0], setup)
    requires var w1 := Next(w, es[0], setup); Legal(w1, es[1], setup)
    requires var w1 := Next(w, es[0], setup); var w2 := Next(w1, es[1], setup); Legal(w2, es[2], setup)
    requires var w1 := Next(w, es[0], setup); var w2 := Next(w1, es[1], setup); var w3 := Next(w2, es[2], setup);
             Legal(w3, es[3], setup)
    ensures LegalRun(w, es, setup)
    ensures var w1 := Next(w, es[0], setup); var w2 := Next(w1, es[1], setup); var w3 := Next(w2, es[2], setup);
            After(w, es, setup) == Next(w3, es[3], setup)
  {
    hide Next, Legal;
    var w1 := Next(w, es[0], setup);
    var w2 := Next(w1, es[1], setup);
    var w3 := Next(w2, es[2], setup);
    var w4 := Next(w3, es[3], setup);
    assert es[1..][1..] == es[2..] && es[2..][1..] == es[3..] && es[3..][1..] == [];
    assert LegalRun(w4, [], setup) && After(w4, [], setup) == w4;
    assert LegalRun(w3, es[3..], setup) && After(w3, es[3..], setup) == w4;
    assert LegalRun(w2, es[2..], setup) && After(w2, es[2..], setup) == w4;
    assert LegalRun(w1, es[1..], setup) && After(w1, es[1..], setup) == w4;
  }
}
