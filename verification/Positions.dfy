/** Who holds which position, and how many slots are taken. */
module Positions {
  import opened Basics
  import opened Settings
  import opened Executor

  datatype Key = Key(market: string, strategy: Strategy, side: Side)

  function OrderKey(o: Order): Key {
    Key(o.market, o.strategy, o.side)
  }

  function TradeKey(t: Trade): Key {
    Key(t.window.market, t.strategy, t.side)
  }

  function OrderKeys(q: seq<Order>): seq<Key> {
    seq(|q|, i requires 0 <= i < |q| => OrderKey(q[i]))
  }

  function TradeKeys(ts: seq<Trade>): seq<Key> {
    seq(|ts|, i requires 0 <= i < |ts| => TradeKey(ts[i]))
  }

  function Held(q: seq<Order>, ts: seq<Trade>): multiset<Key> {
    multiset(OrderKeys(q)) + multiset(TradeKeys(ts))
  }

  /** No two queued orders or open trades share market, strategy and side. */
  ghost predicate Distinct(q: seq<Order>, ts: seq<Trade>) {
    forall k :: Held(q, ts)[k] <= 1
  }

  /** Queued orders plus slot-taking open trades stay within the configured maximum. */
  ghost predicate WithinSlots(q: seq<Order>, ts: seq<Trade>, c: Config, now: nat) {
    |q| + RelevantOpen(ts, c, now) <= c.maxOpenPositions
  }

  // ----- Keys -----

  lemma HeldAround(pre: seq<Order>, o: Order, post: seq<Order>, ts: seq<Trade>)
    ensures Held(pre + [o] + post, ts) == Held(pre + post, ts) + multiset{OrderKey(o)}
  {
    assert OrderKeys(pre + [o] + post) == OrderKeys(pre) + [OrderKey(o)] + OrderKeys(post);
    assert OrderKeys(pre + post) == OrderKeys(pre) + OrderKeys(post);
  }

  lemma HeldPushTrade(q: seq<Order>, ts: seq<Trade>, t: Trade)
    ensures Held(q, ts + [t]) == Held(q, ts) + multiset{TradeKey(t)}
  {
    assert TradeKeys(ts + [t]) == TradeKeys(ts) + [TradeKey(t)];
  }

  lemma HeldRemoveTrade(q: seq<Order>, ts: seq<Trade>, i: nat)
    requires i < |ts|
    ensures Held(q, ts) == Held(q, ts[..i] + ts[i + 1..]) + multiset{TradeKey(ts[i])}
  {
    assert ts == ts[..i] + [ts[i]] + ts[i + 1..];
    assert TradeKeys(ts) == TradeKeys(ts[..i]) + [TradeKey(ts[i])] + TradeKeys(ts[i + 1..]);
    assert TradeKeys(ts[..i] + ts[i + 1..]) == TradeKeys(ts[..i]) + TradeKeys(ts[i + 1..]);
  }

  /** A position is free exactly when neither rows nor queue hold it. */
  lemma HeldExactly(q: seq<Order>, ts: seq<Trade>, k: Key)
    ensures Held(q, ts)[k] == 0 <==>
              !TradeHolds(ts, k.market, k.strategy, Some(k.side)) && !QueueHolds(q, k.market, k.strategy, Some(k.side))
  {
    if TradeHolds(ts, k.market, k.strategy, Some(k.side)) {
      var i :| 0 <= i < |ts| && ts[i].window.market == k.market && ts[i].strategy == k.strategy && k.side == ts[i].side;
      assert TradeKeys(ts)[i] == k;
    } else {
      assert k !in TradeKeys(ts);
    }
    if QueueHolds(q, k.market, k.strategy, Some(k.side)) {
      var i :| 0 <= i < |q| && q[i].market == k.market && q[i].strategy == k.strategy && k.side == q[i].side;
      assert OrderKeys(q)[i] == k;
    } else {
      assert k !in OrderKeys(q);
    }
  }

  /** Asking for any side is asking for both. */
  lemma EitherSide(q: seq<Order>, ts: seq<Trade>, market: string, s: Strategy)
    ensures TradeHolds(ts, market, s, None) <==>
            TradeHolds(ts, market, s, Some(Up)) || TradeHolds(ts, market, s, Some(Down))
    ensures QueueHolds(q, market, s, None) <==>
            QueueHolds(q, market, s, Some(Up)) || QueueHolds(q, market, s, Some(Down))
  {
    if TradeHolds(ts, market, s, None) {
      var i :| 0 <= i < |ts| && ts[i].window.market == market && ts[i].strategy == s;
      assert ts[i].side == Up || ts[i].side == Down;
    }
    if QueueHolds(q, market, s, None) {
      var i :| 0 <= i < |q| && q[i].market == market && q[i].strategy == s;
      assert q[i].side == Up || q[i].side == Down;
    }
  }

  /** A one-sided signal may queue exactly when there is a slot and its strategy holds neither side of the market. */
  lemma SingleQueueExactly(d: Desk, s: Signal, w: Window, c: Config, now: nat)
    ensures SingleQueueRejection(d, s, w, c, now).None? <==>
              && |d.engine.queue| + RelevantOpen(d.trades, c, now) + 1 <= c.maxOpenPositions
              && forall side :: Held(d.engine.queue, d.trades)[Key(w.market, s.strategy, side)] == 0
    ensures SingleQueueRejection(d, s, w, c, now) == Some(MaxOpenPositions) <==>
              |d.engine.queue| + RelevantOpen(d.trades, c, now) + 1 > c.maxOpenPositions
  {
    hide RelevantOpen, TradeHolds, QueueHolds, Held;
    EitherSide(d.engine.queue, d.trades, w.market, s.strategy);
    var up, down := Key(w.market, s.strategy, Up), Key(w.market, s.strategy, Down);
    HeldExactly(d.engine.queue, d.trades, up);
    HeldExactly(d.engine.queue, d.trades, down);
    forall side: Side
      ensures Key(w.market, s.strategy, side) == up || Key(w.market, s.strategy, side) == down
    {
      match side case Up => case Down =>
    }
  }

  /** A spread may queue exactly when there are two slots and no signal's own side is held. */
  lemma SpreadQueueExactly(d: Desk, ss: seq<Signal>, w: Window, c: Config, now: nat)
    ensures SpreadQueueRejection(d, ss, w, c, now).None? <==>
              && |d.engine.queue| + RelevantOpen(d.trades, c, now) + 2 <= c.maxOpenPositions
              && forall i | 0 <= i < |ss| ::
                   Held(d.engine.queue, d.trades)[Key(w.market, ss[i].strategy, ss[i].direction)] == 0
    ensures SpreadQueueRejection(d, ss, w, c, now) == Some(MaxOpenPositions) <==>
              |d.engine.queue| + RelevantOpen(d.trades, c, now) + 2 > c.maxOpenPositions
  {
    hide RelevantOpen, TradeHolds, QueueHolds, Held;
    forall i | 0 <= i < |ss|
      ensures Held(d.engine.queue, d.trades)[Key(w.market, ss[i].strategy, ss[i].direction)] == 0 <==>
                && !TradeHolds(d.trades, w.market, ss[i].strategy, Some(ss[i].direction))
                && !QueueHolds(d.engine.queue, w.market, ss[i].strategy, Some(ss[i].direction))
    {
      HeldExactly(d.engine.queue, d.trades, Key(w.market, ss[i].strategy, ss[i].direction));
    }
  }

  // ----- Slots -----

  lemma CountActivePush(ts: seq<Trade>, t: Trade, now: nat)
    ensures CountActive(ts, now) <= CountActive(ts + [t], now) <= CountActive(ts, now) + 1
  {
    assert (ts + [t])[..|ts|] == ts;
  }

  lemma {:induction false} CountActiveLater(ts: seq<Trade>, now: nat, later: nat)
    requires now <= later
    ensures CountActive(ts, later) <= CountActive(ts, now) <= |ts|
  {
    if ts != [] {
      CountActiveLater(ts[..|ts| - 1], now, later);
    }
  }

  lemma {:induction false} CountActiveRemove(ts: seq<Trade>, i: nat, now: nat)
    requires i < |ts|
    ensures CountActive(ts[..i] + ts[i + 1..], now) <= CountActive(ts, now)
  {
    var n := |ts| - 1;
    if i == n {
      assert ts[..i] + ts[i + 1..] == ts[..n];
    } else {
      CountActiveRemove(ts[..n], i, now);
      var rest := ts[..i] + ts[i + 1..];
      assert rest[..|rest| - 1] == ts[..n][..i] + ts[..n][i + 1..];
      assert rest[|rest| - 1] == ts[n];
    }
  }

  /** Marking trades as settling changes neither keys nor slots. */
  lemma {:induction false} SameWindows(ts: seq<Trade>, ts': seq<Trade>, now: nat)
    requires |ts| == |ts'|
    requires forall i | 0 <= i < |ts| :: ts'[i] == ts[i].(settling := ts'[i].settling)
    ensures CountActive(ts', now) == CountActive(ts, now)
    ensures TradeKeys(ts') == TradeKeys(ts)
  {
    if ts != [] {
      SameWindows(ts[..|ts| - 1], ts'[..|ts| - 1], now);
    }
    assert forall i | 0 <= i < |ts| :: TradeKey(ts'[i]) == TradeKey(ts[i]);
  }

  lemma SlotsLater(q: seq<Order>, ts: seq<Trade>, c: Config, now: nat, later: nat)
    requires WithinSlots(q, ts, c, now) && now <= later
    ensures WithinSlots(q, ts, c, later)
  {
    CountActiveLater(ts, now, later);
  }
}
