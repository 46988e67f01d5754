/** The delayed-execution engine as a value: submission, due-order resolution, and batch processing. */
module Executor {
  import opened Basics
  import opened Settings
  import opened Reserves
  import opened Fees
  import Bankroll

  datatype Side = Up | Down

  datatype Signal = Signal(timestamp: nat, strategy: Strategy, direction: Side, upAsk: real, downAsk: real,
                           confidence: real)

  datatype Window = Window(market: string, endTime: nat, minSize: Option<real>, tick: Option<real>, fees: FeeProfile)

  datatype Book = Book(bestAsk: real, askSize: real, timestamp: nat, observedAt: nat)

  datatype Books = Books(up: Option<Book>, down: Option<Book>)

  datatype Order = Order(
    signalId: int,
    signalTime: nat,
    market: string,
    strategy: Strategy,
    side: Side,
    arrival: nat,
    requestedPrice: real,
    limitPrice: real,
    size: real,
    reserved: real,
    group: Option<nat>)

  /**
   * An open trade row joined with its market row. `session` counts process starts, since group
   * numbers begin again at each start; `settling` says that the market close has been applied to it.
   */
  datatype Trade = Trade(
    signalId: int,
    window: Window,
    strategy: Strategy,
    side: Side,
    entry: real,
    size: real,
    group: Option<nat>,
    session: nat,
    settling: bool)

  datatype Stats = Stats(
    submitted: nat, filled: nat, partial: nat, missed: nat, legging: nat, residual: nat,
    requestedSize: real, filledSize: real, slippage: real, latencyMs: nat)

  const NO_STATS := Stats(0, 0, 0, 0, 0, 0, 0.0, 0.0, 0.0, 0)

  datatype MissReason =
    | WindowMissing | BookUnavailable | BookStale | LimitNotCrossed | ZeroLiquidity | TickMisaligned | FillBelowMin

  datatype Report = Report(signalId: int, market: string, strategy: Strategy, side: Side, missed: Option<MissReason>,
                           requested: real, filled: real)

  datatype Engine = Engine(queue: seq<Order>, reports: seq<Report>, stats: Stats, nextGroup: nat, session: nat)

  function NewEngine(session: nat): Engine {
    Engine([], [], NO_STATS, 1, session)
  }

  /** Bankroll, engine and stored rows: everything one call can change. */
  datatype Desk = Desk(bank: Bankroll.Bank, engine: Engine, trades: seq<Trade>, log: seq<real>)

  datatype RejectReason =
    | MaxOpenPositions | DuplicateOpenPosition | DuplicatePendingOrder
    | SleeveExhausted | NetEdge | BelowMarketMinSize | BelowMinBet

  datatype Submission = Queued(orders: seq<Order>) | Rejected(reason: RejectReason) | StorageFailed

  // ----- Queue rules -----

  function CountActive(trades: seq<Trade>, now: nat): nat {
    if trades == [] then 0
    else CountActive(trades[..|trades| - 1], now) + if trades[|trades| - 1].window.endTime > now then 1 else 0
  }

  /** Open trades that still take up a queue slot. */
  function RelevantOpen(trades: seq<Trade>, c: Config, now: nat): nat {
    if PendingPolicy(c).countsAsOpen then |trades| else CountActive(trades, now)
  }

  predicate TradeHolds(trades: seq<Trade>, market: string, s: Strategy, side: Option<Side>) {
    exists i | 0 <= i < |trades| ::
      trades[i].window.market == market && trades[i].strategy == s && (side == None || side == Some(trades[i].side))
  }

  predicate QueueHolds(queue: seq<Order>, market: string, s: Strategy, side: Option<Side>) {
    exists i | 0 <= i < |queue| ::
      queue[i].market == market && queue[i].strategy == s && (side == None || side == Some(queue[i].side))
  }

  function SingleQueueRejection(d: Desk, s: Signal, w: Window, c: Config, now: nat): Option<RejectReason> {
    if RelevantOpen(d.trades, c, now) + |d.engine.queue| + 1 > c.maxOpenPositions then Some(MaxOpenPositions)
    else if TradeHolds(d.trades, w.market, s.strategy, None) then Some(DuplicateOpenPosition)
    else if QueueHolds(d.engine.queue, w.market, s.strategy, None) then Some(DuplicatePendingOrder)
    else None
  }

  function SpreadQueueRejection(d: Desk, ss: seq<Signal>, w: Window, c: Config, now: nat): Option<RejectReason> {
    if RelevantOpen(d.trades, c, now) + |d.engine.queue| + 2 > c.maxOpenPositions then Some(MaxOpenPositions)
    else if exists i | 0 <= i < |ss| :: TradeHolds(d.trades, w.market, ss[i].strategy, Some(ss[i].direction)) then
      Some(DuplicateOpenPosition)
    else if exists i | 0 <= i < |ss| :: QueueHolds(d.engine.queue, w.market, ss[i].strategy, Some(ss[i].direction)) then
      Some(DuplicatePendingOrder)
    else None
  }

  function SizeRejection(size: real, price: real, minSize: real, minBet: real): Option<RejectReason> {
    if minSize > 0.0 && size < minSize then Some(BelowMarketMinSize)
    else if Cost(size, price) < minBet then Some(BelowMinBet)
    else None
  }

  function Ask(s: Signal): real {
    match s.direction
    case Up => s.upAsk
    case Down => s.downAsk
  }

  function SingleLimit(s: Signal, c: Config): real {
    match FamilyOf(s.strategy)
    case CalmPersistence => c.calmMaxAsk
    case LatencyArb => c.latencyMaxAsk
    case SpreadCapture => c.latencyMaxAsk
  }

  // ----- Submission -----

  function RecordSubmitted(st: Stats, o: Order): Stats {
    st.(submitted := st.submitted + 1, requestedSize := st.requestedSize + o.size)
  }

  /** In live-trading mode an order is counted and routed to the venue instead of queued. */
  function Enqueue(e: Engine, o: Order, c: Config): Engine {
    e.(stats := RecordSubmitted(e.stats, o), queue := if c.mode.LiveTrading? then e.queue else e.queue + [o])
  }

  function SingleOrder(s: Signal, id: int, w: Window, size: real, c: Config): Order {
    Order(id, s.timestamp, w.market, s.strategy, s.direction, SatAdd(s.timestamp, c.orderLatencyMs),
          Ask(s), SingleLimit(s, c), size, Cost(size, SingleLimit(s, c)), None)
  }

  /** `stored` is false when a row cannot be written or read before anything has changed. */
  function SubmitSingle(d: Desk, s: Signal, id: int, w: Window, c: Config, now: nat, stored: bool): (Desk, Submission) {
    if !stored then (d, StorageFailed)
    else
      var rejection := SingleQueueRejection(d, s, w, c, now);
      if rejection.Some? then (d, Rejected(rejection.value))
      else
        var limit := SingleLimit(s, c);
        var (bank, size) :=
          Bankroll.ReserveSingle(d.bank, Ask(s), limit, s.confidence, s.strategy, FamilyOf(s.strategy), c, now);
        if size <= 0.0 then (d.(bank := bank), Rejected(SleeveExhausted))
        else
          var tooSmall := SizeRejection(size, Ask(s), w.minSize.GetOr(0.0), c.minBetUsd);
          if tooSmall.Some? then
            (d.(bank := Bankroll.ReleaseFor(bank, Cost(size, limit), s.strategy)), Rejected(tooSmall.value))
          else
            var order := SingleOrder(s, id, w, size, c);
            (d.(bank := bank, engine := Enqueue(d.engine, order, c)), Queued([order]))
  }

  function FirstIndex(ss: seq<Signal>, side: Side): (r: Option<nat>)
    ensures r.Some? ==> r.value < |ss| && ss[r.value].direction == side
    ensures r.Some? ==> forall i | 0 <= i < r.value :: ss[i].direction != side
    ensures r.None? ==> forall i | 0 <= i < |ss| :: ss[i].direction != side
  {
    if ss == [] then None
    else
      var r := FirstIndex(ss[..|ss| - 1], side);
      if r.Some? then r
      else if ss[|ss| - 1].direction == side then Some(|ss| - 1)
      else None
  }

  function LatestArrival(ss: seq<Signal>, c: Config): nat {
    if ss == [] then 0
    else
      var rest, last := LatestArrival(ss[..|ss| - 1], c), SatAdd(ss[|ss| - 1].timestamp, c.orderLatencyMs);
      if last > rest then last else rest
  }

  function SpreadArrival(ss: seq<Signal>, c: Config, now: nat): nat {
    if ss == [] then SatAdd(now, c.orderLatencyMs) else LatestArrival(ss, c)
  }

  function SpreadOrder(s: Signal, id: int, w: Window, arrival: nat, group: nat, size: real): Order {
    Order(id, s.timestamp, w.market, s.strategy, s.direction, arrival, Ask(s), Ask(s), size, Cost(size, Ask(s)),
          Some(group))
  }

  function WindowFees(w: Window, c: Config): FeeParams {
    ResolveFeeParams(c, w.fees, w.endTime)
  }

  function SpreadSizeRejection(units: real, up: real, down: real, minSize: real, minBet: real): Option<RejectReason> {
    var first := SizeRejection(units, up, minSize, minBet);
    if first.Some? then first else SizeRejection(units, down, minSize, minBet)
  }

  function SubmitSpread(d: Desk, ss: seq<Signal>, ids: seq<int>, w: Window, c: Config, now: nat, stored: bool)
    : (Desk, Submission)
    requires |ids| == |ss|
  {
    if !stored then (d, StorageFailed)
    else
      var rejection := SpreadQueueRejection(d, ss, w, c, now);
      var up, down := FirstIndex(ss, Up), FirstIndex(ss, Down);
      if rejection.Some? then (d, Rejected(rejection.value))
      else if up.None? || down.None? then (d, Queued([]))
      else SubmitPair(d, ss[up.value], ids[up.value], ss[down.value], ids[down.value], w, SpreadArrival(ss, c, now), c,
                      now)
  }

  function SubmitPair(d: Desk, up: Signal, upId: int, down: Signal, downId: int, w: Window, arrival: nat, c: Config,
                      now: nat)
    : (Desk, Submission)
  {
    if SpreadNetEdge(up.upAsk, down.downAsk, 1.0, WindowFees(w, c)) <= 0.0 then (d, Rejected(NetEdge))
    else
      var (bank, units) := Bankroll.ReserveSpread(d.bank, up.upAsk, down.downAsk, SpreadCapture, c, now);
      if units <= 0.0 then (d.(bank := bank), Rejected(SleeveExhausted))
      else
        var tooSmall := SpreadSizeRejection(units, up.upAsk, down.downAsk, w.minSize.GetOr(0.0), c.minBetUsd);
        if tooSmall.Some? then
          var cost := Cost(units, up.upAsk) + Cost(units, down.downAsk);
          (d.(bank := Bankroll.ReleaseFor(bank, cost, up.strategy)), Rejected(tooSmall.value))
        else
          var group := d.engine.nextGroup;
          var upOrder := SpreadOrder(up, upId, w, arrival, group, units);
          var downOrder := SpreadOrder(down, downId, w, arrival, group, units);
          var engine := Enqueue(Enqueue(d.engine.(nextGroup := group + 1), upOrder, c), downOrder, c);
          (d.(bank := bank, engine := engine), Queued([upOrder, downOrder]))
  }

  // ----- Resolving one due order -----

  datatype Context = Context(now: nat, window: Option<Window>, books: Books, config: Config)

  datatype Decision = Defer | Miss(tracked: bool, reason: MissReason) | Fill(price: real, size: real)

  predicate TickAligned(price: real, tick: real) {
    tick <= 0.0 || (var units := price / tick; Abs(units - Round(units)) < 0.000000001)
  }

  function BookRejection(b: Book, now: nat, limit: real, maxStaleness: nat): Option<MissReason> {
    var effective := if b.observedAt >= b.timestamp then b.observedAt else b.timestamp;
    if SatSub(now, effective) > maxStaleness then Some(BookStale)
    else if b.bestAsk <= 0.0 then Some(BookUnavailable)
    else if b.bestAsk > limit then Some(LimitNotCrossed)
    else if b.askSize <= 0.0 then Some(ZeroLiquidity)
    else None
  }

  predicate FillTooSmall(size: real, price: real, minSize: real, minBet: real) {
    size <= 0.0 || (minSize > 0.0 && size < minSize) || Cost(size, price) < minBet
  }

  function Decide(o: Order, x: Context): Decision {
    if o.arrival > x.now then Defer
    else if x.window.None? || x.window.value.market != o.market then Miss(false, WindowMissing)
    else
      var w := x.window.value;
      var side := if o.side == Up then x.books.up else x.books.down;
      if side.None? then Miss(true, BookUnavailable)
      else
        var book := side.value;
        var rejection := BookRejection(book, x.now, o.limitPrice, x.config.maxBookStalenessMs);
        var tick := w.tick.GetOr(0.0);
        if rejection.Some? then Miss(true, rejection.value)
        else if tick > 0.0 && (!TickAligned(o.limitPrice, tick) || !TickAligned(book.bestAsk, tick)) then
          Miss(true, TickMisaligned)
        else
          var size := Min(o.size, book.askSize);
          if FillTooSmall(size, book.bestAsk, w.minSize.GetOr(0.0), x.config.minBetUsd) then Miss(true, FillBelowMin)
          else Fill(book.bestAsk, size)
  }

  /** A fill is never worse than what was reserved for. */
  lemma FillWithinLimit(o: Order, x: Context)
    requires Decide(o, x).Fill?
    ensures var f := Decide(o, x);
            && 0.0 < f.price <= o.limitPrice && 0.0 < f.size <= o.size
            && Cost(f.size, f.price) >= x.config.minBetUsd
            && o.arrival <= x.now && x.window.Some? && x.window.value.market == o.market
  {
    hide Cost, TickAligned;
  }

  /**
   * The exact condition of a fill: due, in the current window, against a fresh book whose ask is
   * positive and within the limit, on tick, and large enough after clipping to the book.
   */
  lemma FillsExactly(o: Order, x: Context)
    ensures Decide(o, x).Fill? <==>
      && o.arrival <= x.now
      && x.window.Some? && x.window.value.market == o.market
      && var side := if o.side == Up then x.books.up else x.books.down;
         && side.Some?
         && var book, w := side.value, x.window.value;
            && (x.now <= x.config.maxBookStalenessMs + book.observedAt
                || x.now <= x.config.maxBookStalenessMs + book.timestamp)
            && 0.0 < book.bestAsk <= o.limitPrice && book.askSize > 0.0
            && (w.tick.Some? && w.tick.value > 0.0 ==>
                  TickAligned(o.limitPrice, w.tick.value) && TickAligned(book.bestAsk, w.tick.value))
            && var size := Min(o.size, book.askSize);
               && size > 0.0 && Cost(size, book.bestAsk) >= x.config.minBetUsd
               && (w.minSize.Some? && w.minSize.value > 0.0 ==> size >= w.minSize.value)
               && Decide(o, x) == Fill(book.bestAsk, size)
    ensures Decide(o, x).Defer? <==> o.arrival > x.now
    ensures Decide(o, x).Miss? && !Decide(o, x).tracked <==>
              o.arrival <= x.now && (x.window.None? || x.window.value.market != o.market)
  {
    hide Cost, TickAligned;
  }

  // ----- Processing the queue -----

  datatype Fault = NoFault | OpenTradeFails | OutcomeWriteFails

  /**
   * The state of one `process_due_orders` call. `orphaned` and `legFills` are history carried over
   * calls: cost left reserved for trades that could not be stored, and one entry per filled spread leg.
   */
  datatype Batch = Batch(
    reserve: Reserve,
    trades: seq<Trade>,
    stats: Stats,
    reports: seq<Report>,
    remaining: seq<Order>,
    groups: map<nat, (nat, nat)>,
    failed: bool,
    orphaned: PerFamily,
    legFills: multiset<nat>)

  function RecordGroup(groups: map<nat, (nat, nat)>, group: Option<nat>, filled: bool): map<nat, (nat, nat)> {
    if group.None? then groups
    else
      var (f, t) := if group.value in groups then groups[group.value] else (0, 0);
      groups[group.value := (if filled then f + 1 else f, t + 1)]
  }

  function RecordFill(st: Stats, o: Order, price: real, size: real, now: nat): Stats {
    st.(partial := if size < o.size then st.partial + 1 else st.partial,
        filled := st.filled + 1,
        filledSize := st.filledSize + size,
        slippage := st.slippage + Cost(size, Max(price - o.requestedPrice, 0.0)),
        latencyMs := st.latencyMs + SatSub(now, o.signalTime))
  }

  function BuildTrade(o: Order, w: Window, price: real, size: real, session: nat): Trade {
    Trade(o.signalId, w, o.strategy, o.side, price, size, o.group, session, false)
  }

  function ReportOf(o: Order, missed: Option<MissReason>, filled: real): Report {
    Report(o.signalId, o.market, o.strategy, o.side, missed, o.size, filled)
  }

  function RejectDue(b: Batch, o: Order, tracked: bool, reason: MissReason, fault: Fault): Batch {
    var b1 := b.(reserve := Release(b.reserve, FamilyOf(o.strategy), o.reserved),
                 stats := b.stats.(missed := b.stats.missed + 1));
    if fault == OutcomeWriteFails then b1.(failed := true)
    else b1.(reports := b1.reports + [ReportOf(o, Some(reason), 0.0)],
             groups := RecordGroup(b1.groups, if tracked then o.group else None, false))
  }

  function FillDue(b: Batch, o: Order, price: real, size: real, x: Context, fault: Fault, session: nat): Batch
    requires x.window.Some?
  {
    var cost, f := Cost(size, price), FamilyOf(o.strategy);
    var b1 := b.(reserve := if o.reserved > cost then Release(b.reserve, f, o.reserved - cost) else b.reserve,
                 stats := RecordFill(b.stats, o, price, size, x.now));
    if fault == OpenTradeFails then
      b1.(failed := true, orphaned := b1.orphaned.Set(f, b1.orphaned.Get(f) + cost))
    else
      var b2 := b1.(trades := b1.trades + [BuildTrade(o, x.window.value, price, size, session)],
                    legFills := if o.group.Some? then b1.legFills + multiset{o.group.value} else b1.legFills);
      if fault == OutcomeWriteFails then b2.(failed := true)
      else b2.(reports := b2.reports + [ReportOf(o, None, size)], groups := RecordGroup(b2.groups, o.group, true))
  }

  function StepOrder(b: Batch, o: Order, x: Context, fault: Fault, session: nat): Batch {
    match Decide(o, x)
    case Defer => b.(remaining := b.remaining + [o])
    case Miss(tracked, reason) => RejectDue(b, o, tracked, reason, fault)
    case Fill(price, size) => FillWithinLimit(o, x); FillDue(b, o, price, size, x, fault, session)
  }

  /** Pop orders front to back; a storage failure stops the loop and puts the untouched rest back. */
  function RunBatch(b: Batch, todo: seq<Order>, x: Context, faults: seq<Fault>, session: nat): Batch
    requires |faults| == |todo|
    decreases |todo|
  {
    if todo == [] then b
    else
      var b1 := StepOrder(b, todo[0], x, faults[0], session);
      if b1.failed then b1.(remaining := b1.remaining + todo[1..])
      else RunBatch(b1, todo[1..], x, faults[1..], session)
  }

  function StartBatch(d: Desk, orphaned: PerFamily, legFills: multiset<nat>): Batch {
    Batch(d.bank.reserve, d.trades, d.engine.stats, d.engine.reports, [], map[], false, orphaned, legFills)
  }

  /** Groups of which both legs were resolved with a tracked outcome and exactly one filled. */
  function LeggedGroups(groups: map<nat, (nat, nat)>): set<nat> {
    set g | g in groups && groups[g] == (1, 2)
  }

  function FinishBatch(d: Desk, b: Batch): Desk {
    var legged := if b.failed then 0 else |LeggedGroups(b.groups)|;
    d.(bank := d.bank.(reserve := b.reserve),
       trades := b.trades,
       engine := d.engine.(
         queue := b.remaining,
         reports := b.reports,
         stats := b.stats.(legging := b.stats.legging + legged, residual := b.stats.residual + legged)))
  }

  /** One call over the whole queue; the two history arguments do not influence the rest. */
  function DueBatch(d: Desk, x: Context, faults: seq<Fault>, orphaned: PerFamily, legFills: multiset<nat>): Batch
    requires |faults| == |d.engine.queue|
  {
    RunBatch(StartBatch(d, orphaned, legFills), d.engine.queue, x, faults, d.engine.session)
  }
}
