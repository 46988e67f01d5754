/** What one pass over the due orders keeps, step by step and for the whole batch. */
module Batches {
  import opened Basics
  import opened Settings
  import opened Reserves
  import opened Executor
  import opened Ledger
  import opened Positions
  import Fees

  /** Every submitted order is filled, missed, or still waiting. */
  ghost predicate Accounted(st: Stats, waiting: nat) {
    st.submitted == st.filled + st.missed + waiting
  }

  // ----- Quoted pairs -----

  /** The asks a spread was accepted at; `window` fixes its fee schedule. */
  datatype Quote = Quote(window: Window, up: real, down: real) {
    function Price(side: Side): real {
      match side
      case Up => up
      case Down => down
    }
  }

  ghost predicate QuoteOk(q: Quote, c: Config) {
    && 0.0 < q.up < 1.0 && 0.0 < q.down < 1.0
    && Fees.SpreadNetEdge(q.up, q.down, 1.0, WindowFees(q.window, c)) > 0.0
  }

  /** Quotes of all spreads ever accepted, by session and group number. */
  type Quotes = map<(nat, nat), Quote>

  ghost predicate OrderQuoted(o: Order, quotes: Quotes, session: nat) {
    o.group.Some? ==>
      && (session, o.group.value) in quotes
      && var q := quotes[(session, o.group.value)];
         o.limitPrice == q.Price(o.side) && o.market == q.window.market && o.strategy == Known(SpreadCapture)
  }

  ghost predicate TradeQuoted(t: Trade, quotes: Quotes) {
    t.group.Some? ==>
      && (t.session, t.group.value) in quotes
      && var q := quotes[(t.session, t.group.value)];
         t.entry <= q.Price(t.side) && t.window == q.window && t.strategy == Known(SpreadCapture)
  }

  ghost predicate AllQuoted(os: seq<Order>, ts: seq<Trade>, quotes: Quotes, session: nat) {
    && (forall i | 0 <= i < |os| :: OrderQuoted(os[i], quotes, session))
    && (forall i | 0 <= i < |ts| :: TradeQuoted(ts[i], quotes))
  }

  /** Each market id names one window. */
  ghost predicate Listed(w: Window, catalog: map<string, Window>) {
    w.market in catalog && catalog[w.market] == w
  }

  ghost predicate QuotesListed(quotes: Quotes, catalog: map<string, Window>) {
    forall k | k in quotes :: Listed(quotes[k].window, catalog)
  }

  // ----- The invariant of a batch in progress -----

  /** `b` has handled a prefix of the queue and `todo` is the rest. */
  ghost predicate BatchInv(b: Batch, todo: seq<Order>, x: Context, quotes: Quotes, session: nat) {
    var q := b.remaining + todo;
    && Conserved(b.reserve, q, b.trades, b.orphaned)
    && Accounted(b.stats, |q|)
    && Distinct(q, b.trades)
    && WithinSlots(q, b.trades, x.config, x.now)
    && AllQuoted(q, b.trades, quotes, session)
  }

  lemma DeferKeeps(b: Batch, o: Order, rest: seq<Order>, x: Context, quotes: Quotes, session: nat)
    requires BatchInv(b, [o] + rest, x, quotes, session)
    ensures BatchInv(b.(remaining := b.remaining + [o]), rest, x, quotes, session)
  {
    assert b.remaining + ([o] + rest) == (b.remaining + [o]) + rest;
  }

  lemma SplitQueue(b: Batch, o: Order, rest: seq<Order>)
    ensures b.remaining + ([o] + rest) == b.remaining + [o] + rest
  {
  }

  lemma RejectKeeps(b: Batch, o: Order, rest: seq<Order>, x: Context, quotes: Quotes, session: nat,
                    tracked: bool, reason: MissReason, fault: Fault)
    requires BatchInv(b, [o] + rest, x, quotes, session)
    ensures BatchInv(RejectDue(b, o, tracked, reason, fault), rest, x, quotes, session)
  {
    hide Conserved, Distinct, Release, RelevantOpen, RecordGroup, OrderQuoted, TradeQuoted;
    SplitQueue(b, o, rest);
    var pre := b.remaining;
    RejectConserves(b.reserve, pre, o, rest, b.trades, b.orphaned);
    DequeueDistinct(pre, o, rest, b.trades);
    QuotedWithout(pre, o, rest, b.trades, quotes, session);
  }

  lemma DequeueDistinct(pre: seq<Order>, o: Order, post: seq<Order>, ts: seq<Trade>)
    requires Distinct(pre + [o] + post, ts)
    ensures Distinct(pre + post, ts)
  {
    HeldAround(pre, o, post, ts);
    hide Held;
    forall k
      ensures Held(pre + post, ts)[k] <= 1
    {
      assert Held(pre + [o] + post, ts)[k] <= 1;
    }
  }

  lemma QuotedWithout(pre: seq<Order>, o: Order, post: seq<Order>, ts: seq<Trade>, quotes: Quotes, session: nat)
    requires AllQuoted(pre + [o] + post, ts, quotes, session)
    ensures OrderQuoted(o, quotes, session)
    ensures AllQuoted(pre + post, ts, quotes, session)
  {
    hide OrderQuoted, TradeQuoted;
    var q := pre + [o] + post;
    assert q[|pre|] == o;
    assert forall i | 0 <= i < |pre| :: pre[i] == q[i];
    assert forall i | 0 <= i < |post| :: post[i] == q[|pre| + 1 + i];
  }

  /** A fill turns one queued key into the same trade key, and one slot into at most one slot. */
  lemma FillKeepsPosition(pre: seq<Order>, o: Order, post: seq<Order>, ts: seq<Trade>, t: Trade, c: Config, now: nat)
    requires Distinct(pre + [o] + post, ts) && WithinSlots(pre + [o] + post, ts, c, now)
    requires TradeKey(t) == OrderKey(o)
    ensures Distinct(pre + post, ts + [t]) && WithinSlots(pre + post, ts + [t], c, now)
  {
    HeldAround(pre, o, post, ts);
    HeldPushTrade(pre + post, ts, t);
    CountActivePush(ts, t, now);
    hide Held, CountActive;
    assert Held(pre + post, ts + [t]) == Held(pre + [o] + post, ts);
  }

  lemma FillKeeps(b: Batch, o: Order, rest: seq<Order>, x: Context, quotes: Quotes, session: nat, fault: Fault,
                  catalog: map<string, Window>)
    requires BatchInv(b, [o] + rest, x, quotes, session)
    requires Decide(o, x).Fill?
    requires x.window.Some? && Listed(x.window.value, catalog) && QuotesListed(quotes, catalog)
    ensures var d := Decide(o, x);
            BatchInv(FillDue(b, o, d.price, d.size, x, fault, session), rest, x, quotes, session)
  {
    hide Conserved, Distinct, WithinSlots, Release, RecordGroup, RecordFill, OrderQuoted, TradeQuoted, Decide, Cost;
    var d := Decide(o, x);
    FillWithinLimit(o, x);
    SplitQueue(b, o, rest);
    var pre := b.remaining;
    var t := BuildTrade(o, x.window.value, d.price, d.size, session);
    FillCost(b.reserve, pre, o, rest, b.trades, b.orphaned, d.price, d.size, t);
    FillAccounted(b.stats, o, d.price, d.size, x.now, |pre + [o] + rest|);
    QuotedWithout(pre, o, rest, b.trades, quotes, session);
    if fault == OpenTradeFails {
      OrphanConserves(b.reserve, pre, o, rest, b.trades, b.orphaned, Cost(d.size, d.price));
      DequeueDistinct(pre, o, rest, b.trades);
      FewerSlots(pre, o, rest, b.trades, x.config, x.now);
    } else {
      FillConserves(b.reserve, pre, o, rest, b.trades, b.orphaned, t);
      FillKeepsPosition(pre, o, rest, b.trades, t, x.config, x.now);
      FillQuoted(o, t, quotes, session, catalog);
    }
  }

  lemma FewerSlots(pre: seq<Order>, o: Order, post: seq<Order>, ts: seq<Trade>, c: Config, now: nat)
    requires WithinSlots(pre + [o] + post, ts, c, now)
    ensures WithinSlots(pre + post, ts, c, now)
  {
  }

  lemma FillAccounted(st: Stats, o: Order, price: real, size: real, now: nat, waiting: nat)
    requires Accounted(st, waiting) && waiting > 0
    ensures Accounted(RecordFill(st, o, price, size, now), waiting - 1)
  {
    hide Cost;
  }

  lemma FillQuoted(o: Order, t: Trade, quotes: Quotes, session: nat, catalog: map<string, Window>)
    requires OrderQuoted(o, quotes, session) && QuotesListed(quotes, catalog) && Listed(t.window, catalog)
    requires t.group == o.group && t.session == session && t.side == o.side && t.strategy == o.strategy
    requires t.entry <= o.limitPrice && t.window.market == o.market
    ensures TradeQuoted(t, quotes)
  {
  }

  /** The branch of the fill that releases the difference always leaves what `Release` would leave. */
  lemma FillCost(r: Reserve, pre: seq<Order>, o: Order, post: seq<Order>, ts: seq<Trade>, orphaned: PerFamily,
                 price: real, size: real, t: Trade)
    requires Conserved(r, pre + [o] + post, ts, orphaned)
    requires 0.0 < price <= o.limitPrice && 0.0 < size <= o.size
    requires t.entry == price && t.size == size
    ensures 0.0 < Cost(size, price) == TradeCost(t) <= o.reserved && TradeOk(t)
    ensures (if o.reserved > Cost(size, price) then Release(r, FamilyOf(o.strategy), o.reserved - Cost(size, price))
             else r)
         == Release(r, FamilyOf(o.strategy), o.reserved - Cost(size, price))
  {
    assert OrderOk((pre + [o] + post)[|pre|]);
    CostMonotone(size, price, o.size, o.limitPrice);
    CostPositive(size, price);
    hide Cost;
    ReleaseNothing(r, FamilyOf(o.strategy));
  }

  lemma ReleaseNothing(r: Reserve, f: Family)
    requires r.NonNegative()
    ensures Release(r, f, 0.0) == r
  {
  }

  lemma StepKeeps(b: Batch, o: Order, rest: seq<Order>, x: Context, quotes: Quotes, session: nat, fault: Fault,
                  catalog: map<string, Window>)
    requires BatchInv(b, [o] + rest, x, quotes, session)
    requires x.window.Some? ==> Listed(x.window.value, catalog)
    requires QuotesListed(quotes, catalog)
    ensures BatchInv(StepOrder(b, o, x, fault, session), rest, x, quotes, session)
  {
    hide BatchInv, Decide, RejectDue, FillDue, Listed, QuotesListed;
    match Decide(o, x)
    case Defer => DeferKeeps(b, o, rest, x, quotes, session);
    case Miss(tracked, reason) => RejectKeeps(b, o, rest, x, quotes, session, tracked, reason, fault);
    case Fill(price, size) =>
      FillWithinLimit(o, x);
      FillKeeps(b, o, rest, x, quotes, session, fault, catalog);
  }

  lemma {:induction false} BatchKeeps(b: Batch, todo: seq<Order>, x: Context, quotes: Quotes, session: nat,
                                      faults: seq<Fault>,
                                      catalog: map<string, Window>)
    requires BatchInv(b, todo, x, quotes, session) && |faults| == |todo|
    requires x.window.Some? ==> Listed(x.window.value, catalog)
    requires QuotesListed(quotes, catalog)
    ensures BatchInv(RunBatch(b, todo, x, faults, session), [], x, quotes, session)
    decreases |todo|
  {
    hide StepOrder, Listed, QuotesListed, Conserved, Accounted, Distinct, WithinSlots, AllQuoted;
    if todo != [] {
      assert todo == [todo[0]] + todo[1..];
      StepKeeps(b, todo[0], todo[1..], x, quotes, session, faults[0], catalog);
      var b1 := StepOrder(b, todo[0], x, faults[0], session);
      if b1.failed {
        assert (b1.remaining + todo[1..]) + [] == b1.remaining + todo[1..];
      } else {
        BatchKeeps(b1, todo[1..], x, quotes, session, faults[1..], catalog);
      }
    }
  }

  // ----- The queue after a batch -----

  /** Whether the storage fault at this order would be met: only resolved orders touch storage. */
  predicate FaultHits(o: Order, x: Context, fault: Fault) {
    match Decide(o, x)
    case Defer => false
    case Miss(_, _) => fault == OutcomeWriteFails
    case Fill(_, _) => fault != NoFault
  }

  /** Position of the first order at which the batch fails, or the length if it does not. */
  function FirstHit(todo: seq<Order>, x: Context, faults: seq<Fault>): (k: nat)
    requires |faults| == |todo|
    ensures k <= |todo|
    ensures forall i | 0 <= i < k :: !FaultHits(todo[i], x, faults[i])
    ensures k < |todo| ==> FaultHits(todo[k], x, faults[k])
  {
    if todo == [] then 0
    else if FaultHits(todo[0], x, faults[0]) then 0
    else 1 + FirstHit(todo[1..], x, faults[1..])
  }

  function Deferred(todo: seq<Order>, x: Context): seq<Order> {
    if todo == [] then []
    else (if Decide(todo[0], x).Defer? then [todo[0]] else []) + Deferred(todo[1..], x)
  }

  function Resolutions(todo: seq<Order>, x: Context): seq<Report> {
    if todo == [] then []
    else
      var head :=
        match Decide(todo[0], x)
        case Defer => []
        case Miss(_, reason) => [ReportOf(todo[0], Some(reason), 0.0)]
        case Fill(_, size) => [ReportOf(todo[0], None, size)];
      head + Resolutions(todo[1..], x)
  }

  /**
   * Without a fault the queue afterwards is the deferred orders in their old order and every other
   * order is reported. With a fault at order `k`, everything before `k` is handled just so, the
   * orders after `k` stay queued untouched, and only order `k` is neither queued nor reported.
   */
  lemma {:induction false} BatchQueue(b: Batch, todo: seq<Order>, x: Context, faults: seq<Fault>, session: nat)
    requires |faults| == |todo| && !b.failed
    ensures var k, b' := FirstHit(todo, x, faults), RunBatch(b, todo, x, faults, session);
            && (b'.failed <==> k < |todo|)
            && b'.remaining == b.remaining + Deferred(todo[..k], x) + (if k < |todo| then todo[k + 1..] else [])
            && b'.reports == b.reports + Resolutions(todo[..k], x)
    decreases |todo|
  {
    hide StepOrder, Decide, Deferred, Resolutions, FaultHits;
    NothingDeferred(x);
    if todo != [] {
      var b1, k := StepOrder(b, todo[0], x, faults[0], session), FirstHit(todo, x, faults);
      StepQueue(b, todo[0], x, faults[0], session);
      if !b1.failed {
        BatchQueue(b1, todo[1..], x, faults[1..], session);
        PrefixUnfolds(todo, k, x);
        if k < |todo| { assert todo[1..][k..] == todo[k + 1..]; }
      } else {
        FaultedNotDeferred(todo[0], x, faults[0]);
      }
    }
  }

  lemma NothingDeferred(x: Context)
    ensures Deferred([], x) == [] && Resolutions([], x) == []
  {
  }

  lemma FaultedNotDeferred(o: Order, x: Context, fault: Fault)
    requires FaultHits(o, x, fault)
    ensures Deferred([o], x) == []
  {
    hide Decide;
    assert [o][1..] == [];
  }

  lemma PrefixUnfolds(todo: seq<Order>, k: nat, x: Context)
    requires 0 < k <= |todo|
    ensures Deferred(todo[..k], x) == Deferred([todo[0]], x) + Deferred(todo[1..][..k - 1], x)
    ensures Resolutions(todo[..k], x) == Resolutions([todo[0]], x) + Resolutions(todo[1..][..k - 1], x)
  {
    hide Decide;
    assert todo[..k][1..] == todo[1..][..k - 1];
    assert [todo[0]][1..] == [];
  }

  lemma StepQueue(b: Batch, o: Order, x: Context, fault: Fault, session: nat)
    requires !b.failed
    ensures var b' := StepOrder(b, o, x, fault, session);
            && b'.failed == FaultHits(o, x, fault)
            && b'.remaining == b.remaining + Deferred([o], x)
            && (!b'.failed ==> b'.reports == b.reports + Resolutions([o], x))
            && (b'.failed ==> b'.reports == b.reports)
  {
    hide Decide, Release, RecordFill, RecordGroup, Cost;
    assert [o][1..] == [];
    if Decide(o, x).Fill? { FillWithinLimit(o, x); }
  }

  // ----- Orphaned reserve -----

  /** The order of this batch, if any, that filled but whose trade row could not be stored. */
  function LostFill(todo: seq<Order>, x: Context, faults: seq<Fault>): Option<Order>
    requires |faults| == |todo|
  {
    var k := FirstHit(todo, x, faults);
    if k < |todo| && Decide(todo[k], x).Fill? && faults[k] == OpenTradeFails then Some(todo[k]) else None
  }

  /** A batch orphans reserve exactly when it loses a fill, and then exactly that fill's cost. */
  lemma {:induction false} BatchOrphans(b: Batch, todo: seq<Order>, x: Context, faults: seq<Fault>, session: nat)
    requires |faults| == |todo| && !b.failed
    ensures var lost, b' := LostFill(todo, x, faults), RunBatch(b, todo, x, faults, session);
            b'.orphaned ==
              if lost.None? then b.orphaned
              else
                var f, d := FamilyOf(lost.value.strategy), Decide(lost.value, x);
                b.orphaned.Set(f, b.orphaned.Get(f) + Cost(d.size, d.price))
    decreases |todo|
  {
    hide StepOrder, Decide, Cost;
    if todo != [] {
      StepOrphans(b, todo[0], x, faults[0], session);
      var b1 := StepOrder(b, todo[0], x, faults[0], session);
      if !b1.failed {
        BatchOrphans(b1, todo[1..], x, faults[1..], session);
        assert LostFill(todo, x, faults) == LostFill(todo[1..], x, faults[1..]);
      }
    }
  }

  lemma StepOrphans(b: Batch, o: Order, x: Context, fault: Fault, session: nat)
    requires !b.failed
    ensures var b', d := StepOrder(b, o, x, fault, session), Decide(o, x);
            && b'.failed == FaultHits(o, x, fault)
            && b'.orphaned ==
                 if d.Fill? && fault == OpenTradeFails
                 then b.orphaned.Set(FamilyOf(o.strategy), b.orphaned.Get(FamilyOf(o.strategy)) + Cost(d.size, d.price))
                 else b.orphaned
  {
    hide Decide, Release, RecordFill, RecordGroup, Cost;
    if Decide(o, x).Fill? { FillWithinLimit(o, x); }
  }
}
