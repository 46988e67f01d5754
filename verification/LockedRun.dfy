/**
 * The fee condition for locked profit is exact at the desk: under every unsafe fee some run fills a
 * spread at a loss.
 */
module LockedRun {
  import opened Basics
  import opened Settings
  import opened Executor
  import opened Lifecycle
  import opened TradingRun
  import opened Theorems
  import opened LockedEdge
  import opened Precheck
  import opened RestartBound
  import Bankroll
  import Drawdown
  import Fees
  import Reserves

  /** A permissive configuration that charges `fee` everywhere. */
  function Charging(fee: Fees.FeeParams): Config {
    Config(1.0, None, None, None, 1.0, 4.0, 0.0, 0.0, 1.0, 1.0, 0, 0.0, 0.5, 0.5, 20, 0.0, 30,
           0.0, 1.0, false, Paper, false, 0.0, 0.0, 10, 0, 0, 0.5, 0.5, fee.rate, fee.exponent, true)
  }

  const WINDOW := Window("market", 0, None, None, Fees.FeeProfile(None, None, false))

  function Charged(fee: Fees.FeeParams): Setup {
    Setup(Charging(fee), 4.0, map["market" := WINDOW])
  }

  function Quoted(side: Side, up: real, down: real): Signal {
    Signal(0, Known(SpreadCapture), side, up, down, 1.0)
  }

  function Ordered(side: Side, id: int, up: real, down: real, size: real): Order {
    SpreadOrder(Quoted(side, up, down), id, WINDOW, 0, 1, size)
  }

  function Buy(up: real, down: real): Event {
    SubmitSpread([Quoted(Up, up, down), Quoted(Down, up, down)], [0, 1], WINDOW, 0, true)
  }

  /** Both books at the given asks, deep enough for the order. */
  function FillAt(up: real, down: real, size: real): Event {
    ProcessDue(Some(WINDOW), Books(Some(Book(up, size, 0, 0)), Some(Book(down, size, 0, 0))), [NoFault, NoFault], 0)
  }

  // ----- The pair is queued -----

  lemma GateOpen(fee: Fees.FeeParams)
    ensures Bankroll.CanTrade(Bankroll.Open(4.0, 4.0), Charging(fee), 0).0
  {
    assert Drawdown.Current(Bankroll.Open(4.0, 4.0).equity) == 0.0;
  }

  lemma AllAvailable(fee: Fees.FeeParams)
    ensures Bankroll.Available(Bankroll.Open(4.0, 4.0), SpreadCapture, Charging(fee)) == 4.0
  {
    hide Bankroll.EffectiveReserved, Bankroll.Budget;
    Unreserved(Charging(fee));
    WholeBudget(fee);
  }

  lemma Unreserved(c: Config)
    ensures Bankroll.EffectiveReserved(Reserves.EMPTY, c) == 0.0 && Bankroll.Share(4.0, 1.0) == 4.0
  {
  }

  lemma WholeBudget(fee: Fees.FeeParams)
    ensures Bankroll.Budget(Bankroll.Open(4.0, 4.0), SpreadCapture, Charging(fee)) == 4.0
  {
    hide Bankroll.EffectiveReserved, Bankroll.Share;
    Unreserved(Charging(fee));
  }

  lemma OneUnitNeeded(up: real, down: real)
    requires Bankroll.PriceOk(up) && Bankroll.PriceOk(down)
    ensures Bankroll.RequiredUnits(up, down, 0.0, 0.0) == 1.0 && Cost(1.0, up + down) == up + down
  {
    assert 0.0 / up == 0.0 && 0.0 / down == 0.0;
  }

  lemma Accepts(up: real, down: real, fee: Fees.FeeParams)
    requires Bankroll.PriceOk(up) && Bankroll.PriceOk(down)
    ensures Accepted(Bankroll.Open(4.0, 4.0), up, down, 0.0, SpreadCapture, Charging(fee))
  {
    hide Bankroll.Available, Bankroll.RequiredUnits, Accepted;
    AllAvailable(fee);
    OneUnitNeeded(up, down);
    AcceptedExactly(Bankroll.Open(4.0, 4.0), up, down, 0.0, SpreadCapture, Charging(fee));
  }

  lemma FeesAre(fee: Fees.FeeParams)
    ensures WindowFees(WINDOW, Charging(fee)) == fee
  {
  }

  /** What a queued pair leaves behind. */
  lemma QueuedPair(d: Desk, up: Signal, down: Signal, w: Window, c: Config)
    requires SubmitPair(d, up, 0, down, 1, w, 0, c, 0).1.Queued? && c.mode == Paper
    ensures var d' := SubmitPair(d, up, 0, down, 1, w, 0, c, 0).0;
            var size := Bankroll.ReserveSpread(d.bank, up.upAsk, down.downAsk, SpreadCapture, c, 0).1;
            && d'.engine.queue == d.engine.queue + [SpreadOrder(up, 0, w, 0, d.engine.nextGroup, size)]
                                  + [SpreadOrder(down, 1, w, 0, d.engine.nextGroup, size)]
            && d'.trades == d.trades && d'.engine.session == d.engine.session && size > 0.0
  {
    hide Fees.SpreadNetEdge, WindowFees, Bankroll.ReserveSpread, SpreadSizeRejection, Cost, SpreadOrder;
  }

  lemma Queues(up: real, down: real, fee: Fees.FeeParams) returns (size: real)
    requires Bankroll.PriceOk(up) && Bankroll.PriceOk(down) && Fees.SpreadNetEdge(up, down, 1.0, fee) > 0.0
    ensures size > 0.0
    ensures var d := Init(Charged(fee)).desk;
            var d' := SubmitPair(d, Quoted(Up, up, down), 0, Quoted(Down, up, down), 1, WINDOW, 0, Charging(fee), 0).0;
            && d'.engine.queue == [Ordered(Up, 0, up, down, size), Ordered(Down, 1, up, down, size)]
            && d'.trades == [] && d'.engine.session == 0
  {
    hide Fees.SpreadNetEdge, WindowFees, SubmitPair, Accepted, Bankroll.CanTrade, Bankroll.ReserveSpread, SpreadOrder;
    var d, c := Init(Charged(fee)).desk, Charging(fee);
    var u, n := Quoted(Up, up, down), Quoted(Down, up, down);
    FeesAre(fee);
    GateOpen(fee);
    Accepts(up, down, fee);
    PairQueuedExactly(d, u, 0, n, 1, WINDOW, 0, c, 0);
    QueuedPair(d, u, n, WINDOW, c);
    size := Bankroll.ReserveSpread(d.bank, up, down, SpreadCapture, c, 0).1;
  }

  lemma PicksBoth(up: real, down: real, fee: Fees.FeeParams)
    ensures var ss := [Quoted(Up, up, down), Quoted(Down, up, down)];
            FirstIndex(ss, Up) == Some(0) && FirstIndex(ss, Down) == Some(1) && SpreadArrival(ss, Charging(fee), 0) == 0
  {
    var ss, c := [Quoted(Up, up, down), Quoted(Down, up, down)], Charging(fee);
    assert ss[0].direction == Up && ss[1].direction == Down;
    assert ss[..1] == [ss[0]] && [ss[0]][..0] == [];
    assert LatestArrival([], c) == 0 && LatestArrival([ss[0]], c) == 0;
  }

  lemma RoomLeft(up: real, down: real, fee: Fees.FeeParams)
    ensures var d := Init(Charged(fee)).desk;
            SpreadQueueRejection(d, [Quoted(Up, up, down), Quoted(Down, up, down)], WINDOW, Charging(fee), 0).None?
  {
  }

  ghost predicate Waiting(w: World, up: real, down: real, size: real) {
    && w.clock == 0 && w.desk.engine.session == 0 && w.desk.trades == []
    && w.desk.engine.queue == [Ordered(Up, 0, up, down, size), Ordered(Down, 1, up, down, size)]
  }

  lemma BuyQueues(up: real, down: real, fee: Fees.FeeParams) returns (size: real)
    requires Bankroll.PriceOk(up) && Bankroll.PriceOk(down) && Fees.SpreadNetEdge(up, down, 1.0, fee) > 0.0
    ensures size > 0.0
    ensures var setup := Charged(fee);
            Legal(Init(setup), Buy(up, down), setup) && Waiting(Next(Init(setup), Buy(up, down), setup), up, down, size)
  {
    hide SubmitPair, SpreadQueueRejection, FirstIndex, SpreadArrival, Fees.SpreadNetEdge, Ordered, AddQuote;
    PicksBoth(up, down, fee);
    RoomLeft(up, down, fee);
    size := Queues(up, down, fee);
    var ss := [Quoted(Up, up, down), Quoted(Down, up, down)];
    assert forall i | 0 <= i < |ss| :: FamilyOf(ss[i].strategy) == SpreadCapture;
  }

  // ----- Both legs fill -----

  function Opened(side: Side, id: int, up: real, down: real, size: real, price: real): Trade {
    BuildTrade(Ordered(side, id, up, down, size), WINDOW, price, size, 0)
  }

  lemma LegFills(o: Order, x: Context, fee: Fees.FeeParams, price: real)
    requires o.arrival == 0 == x.now && o.market == "market" && x.window == Some(WINDOW) && x.config == Charging(fee)
    requires 0.0 < price <= o.limitPrice && o.size > 0.0
    requires (if o.side == Up then x.books.up else x.books.down) == Some(Book(price, o.size, 0, 0))
    ensures Decide(o, x) == Fill(price, o.size)
  {
    CostMonotone(0.0, price, o.size, price);
    hide Cost;
  }

  lemma StepFills(b: Batch, o: Order, x: Context, price: real)
    requires !b.failed && x.window == Some(WINDOW) && Decide(o, x) == Fill(price, o.size)
    ensures var b' := StepOrder(b, o, x, NoFault, 0);
            !b'.failed && b'.trades == b.trades + [BuildTrade(o, WINDOW, price, o.size, 0)]
  {
    hide Decide, Reserves.Release, Cost;
  }

  lemma BothFill(w: World, up: real, down: real, up': real, down': real, size: real, fee: Fees.FeeParams)
    requires Waiting(w, up, down, size) && size > 0.0 && 0.0 < up' <= up && 0.0 < down' <= down
    ensures var setup := Charged(fee);
            && Legal(w, FillAt(up', down', size), setup)
            && Next(w, FillAt(up', down', size), setup).desk.trades
               == [Opened(Up, 0, up, down, size, up'), Opened(Down, 1, up, down, size, down')]
  {
    hide StepOrder, Decide, Charging;
    var e := FillAt(up', down', size);
    var x := Context(0, e.current, e.books, Charging(fee));
    var u, n := Ordered(Up, 0, up, down, size), Ordered(Down, 1, up, down, size);
    LegFills(u, x, fee, up');
    LegFills(n, x, fee, down');
    var b0 := StartBatch(w.desk, w.orphaned, w.legFills);
    var b1 := StepOrder(b0, u, x, NoFault, 0);
    var b2 := StepOrder(b1, n, x, NoFault, 0);
    StepFills(b0, u, x, up');
    StepFills(b1, n, x, down');
    assert [u, n][1..] == [n] && [n][1..] == [] && [NoFault, NoFault][1..] == [NoFault] && [NoFault][1..] == [];
    assert RunBatch(b2, [], x, [], 0) == b2;
    assert RunBatch(b1, [n], x, [NoFault], 0) == b2;
    assert DueBatch(w.desk, x, [NoFault, NoFault], w.orphaned, w.legFills) == b2;
  }

  // ----- The loss -----

  /**
   * For every fee that is not safe there is a fresh run, with working storage, that ends with the two
   * legs of one accepted spread open in equal size, and settling them gains nothing whichever side wins.
   */
  lemma UnsafeFeeLosesInRun(fee: Fees.FeeParams) returns (setup: Setup, es: seq<Event>)
    requires !SafeFee(fee)
    ensures FreshRun(es, setup) && NoCorrections(es) && StorageWorks(es)
    ensures var w := Reached(es, setup);
            && |w.desk.trades| == 2 && SamePair(w.desk.trades[0], w.desk.trades[1])
            && w.desk.trades[0].size == w.desk.trades[1].size
               && WindowFees(w.desk.trades[0].window, setup.config) == fee
            && forall winner: Side ::
                 SettlementPnl(w.desk.trades[0], winner, setup.config) + SettlementPnl(w.desk.trades[1], winner,
                                                                                       setup.config) <= 0.0
  {
    hide SafeFee, Fees.SpreadNetEdge, Fees.TradePnl, Next, Legal, LegalRun, After, Waiting;
    var up, down, up' := UnsafeFeeLoses(fee);
    setup := Charged(fee);
    var w0 := Init(setup);
    var size := BuyQueues(up, down, fee);
    var w1 := Next(w0, Buy(up, down), setup);
    BothFill(w1, up, down, up', down, size, fee);
    var w2 := Next(w1, FillAt(up', down, size), setup);
    EmptyRun(w2, setup);
    RunFrom(w1, FillAt(up', down, size), [], setup);
    RunFrom(w0, Buy(up, down), [FillAt(up', down, size)] + [], setup);
    es := [Buy(up, down)] + ([FillAt(up', down, size)] + []);
    FeesAre(fee);
    var t, u := Opened(Up, 0, up, down, size, up'), Opened(Down, 1, up, down, size, down);
    forall winner: Side
      ensures SettlementPnl(t, winner, setup.config) + SettlementPnl(u, winner, setup.config) <= 0.0
    {
      PnlIs(t, winner, setup.config);
      PnlIs(u, winner, setup.config);
      assert (Down == winner) == !(Up == winner);
    }
  }
}
