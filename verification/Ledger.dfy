/**
 * Reserve accounting: what the bankroll has reserved is exactly what queued orders and open
 * trades stand for, family by family.
 */
module Ledger {
  import opened Basics
  import opened Settings
  import opened Reserves
  import opened Executor
  import opened Sums
  import opened Lifecycle
  import Bankroll

  // ----- What is owed -----

  function OrderWeight(f: Family): Order -> real {
    (o: Order) => if FamilyOf(o.strategy) == f then o.reserved else 0.0
  }

  function TradeCost(t: Trade): real {
    Cost(t.size, t.entry)
  }

  function TradeWeight(f: Family): Trade -> real {
    (t: Trade) => if FamilyOf(t.strategy) == f then TradeCost(t) else 0.0
  }

  function UnsettledWeight(f: Family): Trade -> real {
    (t: Trade) => if FamilyOf(t.strategy) == f && !t.settling then TradeCost(t) else 0.0
  }

  function QueuedCost(q: seq<Order>, f: Family): real {
    Sum(q, OrderWeight(f))
  }

  function OpenCost(ts: seq<Trade>, f: Family): real {
    Sum(ts, TradeWeight(f))
  }

  /** Cost of open trades whose market close has not been applied. */
  function LiveCost(ts: seq<Trade>, f: Family): real {
    Sum(ts, UnsettledWeight(f))
  }

  ghost predicate OrderOk(o: Order) {
    o.size > 0.0 && 0.0 < o.limitPrice < 1.0 && o.reserved == Cost(o.size, o.limitPrice) && o.reserved > 0.0
  }

  ghost predicate TradeOk(t: Trade) {
    t.size > 0.0 && 0.0 < t.entry < 1.0 && TradeCost(t) > 0.0
  }

  /** Every queued order and open trade is well formed, and no bucket is negative. */
  ghost predicate Sound(r: Reserve, q: seq<Order>, ts: seq<Trade>, orphaned: PerFamily) {
    && r.NonNegative() && orphaned.NonNegative()
    && (forall i | 0 <= i < |q| :: OrderOk(q[i]))
    && (forall i | 0 <= i < |ts| :: TradeOk(ts[i]))
  }

  /** Conservation for one family, and the one-sided bound on its active bucket. */
  ghost predicate Balanced(r: Reserve, q: seq<Order>, ts: seq<Trade>, orphaned: PerFamily, f: Family) {
    && r.Family(f) == QueuedCost(q, f) + OpenCost(ts, f) + orphaned.Get(f)
    && r.active.Get(f) <= QueuedCost(q, f) + LiveCost(ts, f) + orphaned.Get(f)
  }

  ghost predicate Conserved(r: Reserve, q: seq<Order>, ts: seq<Trade>, orphaned: PerFamily) {
    Sound(r, q, ts, orphaned) && forall f :: Balanced(r, q, ts, orphaned, f)
  }

  // ----- Non-negativity -----

  lemma QueuedNonNegative(q: seq<Order>, f: Family)
    requires forall i | 0 <= i < |q| :: OrderOk(q[i])
    ensures QueuedCost(q, f) >= 0.0
  {
    SumNonNegative(q, OrderWeight(f));
  }

  lemma OpenNonNegative(ts: seq<Trade>, f: Family)
    requires forall i | 0 <= i < |ts| :: TradeOk(ts[i])
    ensures 0.0 <= LiveCost(ts, f) <= OpenCost(ts, f)
  {
    SumNonNegative(ts, UnsettledWeight(f));
    SumAtMost(ts, UnsettledWeight(f), TradeWeight(f));
  }

  // ----- Moving one obligation -----

  lemma QueuedAround(pre: seq<Order>, o: Order, post: seq<Order>, f: Family)
    ensures QueuedCost(pre + [o] + post, f)
         == QueuedCost(pre + post, f) + if FamilyOf(o.strategy) == f then o.reserved else 0.0
  {
    SumAround(pre, o, post, OrderWeight(f));
  }

  lemma OpenPush(ts: seq<Trade>, t: Trade, f: Family)
    ensures OpenCost(ts + [t], f) == OpenCost(ts, f) + if FamilyOf(t.strategy) == f then TradeCost(t) else 0.0
    ensures LiveCost(ts + [t], f)
         == LiveCost(ts, f) + if FamilyOf(t.strategy) == f && !t.settling then TradeCost(t) else 0.0
  {
    SumPush(ts, t, TradeWeight(f));
    SumPush(ts, t, UnsettledWeight(f));
  }

  lemma OpenRemove(ts: seq<Trade>, i: nat, f: Family)
    requires i < |ts|
    ensures var t, rest := ts[i], ts[..i] + ts[i + 1..];
            && OpenCost(rest, f) == OpenCost(ts, f) - (if FamilyOf(t.strategy) == f then TradeCost(t) else 0.0)
            && LiveCost(rest, f)
               == LiveCost(ts, f) - (if FamilyOf(t.strategy) == f && !t.settling then TradeCost(t) else 0.0)
  {
    SumRemove(ts, i, TradeWeight(f));
    SumRemove(ts, i, UnsettledWeight(f));
  }

  /** Reserving and then releasing the same amount is no change at all. */
  lemma ReserveThenRelease(r: Reserve, f: Family, amount: real)
    requires r.NonNegative() && amount >= 0.0
    ensures Release(AddActive(r, f, amount), f, amount) == r
  {
  }

  /** A queued order is backed by the amount just reserved for it. */
  lemma EnqueueConserves(r: Reserve, q: seq<Order>, ts: seq<Trade>, orphaned: PerFamily, o: Order)
    requires Conserved(r, q, ts, orphaned) && OrderOk(o)
    ensures Conserved(AddActive(r, FamilyOf(o.strategy), o.reserved), q + [o], ts, orphaned)
  {
    hide QueuedCost, OpenCost, LiveCost;
    var r', q' := AddActive(r, FamilyOf(o.strategy), o.reserved), q + [o];
    forall f
      ensures Balanced(r', q', ts, orphaned, f)
    {
      assert Balanced(r, q, ts, orphaned, f);
      QueuedAround(q, o, [], f);
      assert q + [o] + [] == q' && q + [] == q;
    }
  }

  /** Two amounts reserved together back two orders of one family. */
  lemma AddActiveTwice(r: Reserve, f: Family, a: real, b: real)
    ensures AddActive(AddActive(r, f, a), f, b) == AddActive(r, f, a + b)
  {
  }

  /** What an order leaves behind when it leaves the queue: `kept` moves on to a trade or is orphaned. */
  lemma DequeueBalance(r: Reserve, pre: seq<Order>, o: Order, post: seq<Order>, ts: seq<Trade>, orphaned: PerFamily,
                       kept: real, f: Family)
    requires Conserved(r, pre + [o] + post, ts, orphaned)
    requires 0.0 <= kept <= o.reserved
    ensures var r' := Release(r, FamilyOf(o.strategy), o.reserved - kept);
            var extra := if FamilyOf(o.strategy) == f then kept else 0.0;
            && r'.NonNegative()
            && r'.Family(f) == QueuedCost(pre + post, f) + OpenCost(ts, f) + orphaned.Get(f) + extra
            && r'.active.Get(f) <= QueuedCost(pre + post, f) + LiveCost(ts, f) + orphaned.Get(f) + extra
  {
    hide QueuedCost, OpenCost, LiveCost, Release, OrderOk;
    var q, g, amount := pre + [o] + post, FamilyOf(o.strategy), o.reserved - kept;
    assert forall i | 0 <= i < |pre + post| :: OrderOk((pre + post)[i]) by {
      assert forall i | 0 <= i < |pre| :: pre[i] == q[i];
      assert forall i | 0 <= i < |post| :: post[i] == q[|pre| + 1 + i];
    }
    assert Balanced(r, q, ts, orphaned, g) && Balanced(r, q, ts, orphaned, f);
    QueuedAround(pre, o, post, g);
    QueuedNonNegative(pre + post, g);
    OpenNonNegative(ts, g);
    assert orphaned.Get(g) >= 0.0;
    ReleaseExact(r, g, amount);
    QueuedAround(pre, o, post, f);
  }

  /** A missed order gives all of its reserve back. */
  lemma RejectConserves(r: Reserve, pre: seq<Order>, o: Order, post: seq<Order>, ts: seq<Trade>, orphaned: PerFamily)
    requires Conserved(r, pre + [o] + post, ts, orphaned)
    ensures Conserved(Release(r, FamilyOf(o.strategy), o.reserved), pre + post, ts, orphaned)
  {
    hide QueuedCost, OpenCost, LiveCost, Release, OrderOk, TradeOk;
    OrdersOkWithout(pre, o, post);
    forall f
      ensures Balanced(Release(r, FamilyOf(o.strategy), o.reserved), pre + post, ts, orphaned, f)
    {
      DequeueBalance(r, pre, o, post, ts, orphaned, 0.0, f);
    }
    DequeueBalance(r, pre, o, post, ts, orphaned, 0.0, LatencyArb);
  }

  lemma OrdersOkWithout(pre: seq<Order>, o: Order, post: seq<Order>)
    requires forall i | 0 <= i < |pre + [o] + post| :: OrderOk((pre + [o] + post)[i])
    ensures o.reserved > 0.0
    ensures forall i | 0 <= i < |pre + post| :: OrderOk((pre + post)[i])
  {
    var q := pre + [o] + post;
    assert q[|pre|] == o;
    assert forall i | 0 <= i < |pre| :: pre[i] == q[i];
    assert forall i | 0 <= i < |post| :: post[i] == q[|pre| + 1 + i];
  }

  /** A filled order keeps exactly the cost of its trade reserved. */
  lemma FillConserves(r: Reserve, pre: seq<Order>, o: Order, post: seq<Order>, ts: seq<Trade>, orphaned: PerFamily,
                      t: Trade)
    requires Conserved(r, pre + [o] + post, ts, orphaned)
    requires TradeOk(t) && t.strategy == o.strategy && !t.settling && TradeCost(t) <= o.reserved
    ensures Conserved(Release(r, FamilyOf(o.strategy), o.reserved - TradeCost(t)), pre + post, ts + [t], orphaned)
  {
    hide QueuedCost, OpenCost, LiveCost, Release, OrderOk, TradeCost;
    OrdersOkWithout(pre, o, post);
    var r' := Release(r, FamilyOf(o.strategy), o.reserved - TradeCost(t));
    forall f
      ensures Balanced(r', pre + post, ts + [t], orphaned, f)
    {
      DequeueBalance(r, pre, o, post, ts, orphaned, TradeCost(t), f);
      OpenPush(ts, t, f);
    }
    DequeueBalance(r, pre, o, post, ts, orphaned, TradeCost(t), LatencyArb);
  }

  /** A fill whose trade row cannot be stored leaves its cost reserved with nothing to show for it. */
  lemma OrphanConserves(r: Reserve, pre: seq<Order>, o: Order, post: seq<Order>, ts: seq<Trade>, orphaned: PerFamily,
                        cost: real)
    requires Conserved(r, pre + [o] + post, ts, orphaned)
    requires 0.0 <= cost <= o.reserved
    ensures var f := FamilyOf(o.strategy);
            Conserved(Release(r, f, o.reserved - cost), pre + post, ts, orphaned.Set(f, orphaned.Get(f) + cost))
  {
    hide QueuedCost, OpenCost, LiveCost, Release, OrderOk, TradeOk;
    OrdersOkWithout(pre, o, post);
    var g := FamilyOf(o.strategy);
    var r', orphaned' := Release(r, g, o.reserved - cost), orphaned.Set(g, orphaned.Get(g) + cost);
    forall f
      ensures Balanced(r', pre + post, ts, orphaned', f)
    {
      DequeueBalance(r, pre, o, post, ts, orphaned, cost, f);
    }
    DequeueBalance(r, pre, o, post, ts, orphaned, cost, LatencyArb);
  }

  /** Settling a trade frees exactly its cost, wherever settlement took the reserve from. */
  lemma SettleConserves(r: Reserve, q: seq<Order>, ts: seq<Trade>, orphaned: PerFamily, i: nat)
    requires Conserved(r, q, ts, orphaned) && i < |ts|
    ensures var r' := Release(r, FamilyOf(ts[i].strategy), TradeCost(ts[i]));
            && Conserved(r', q, ts[..i] + ts[i + 1..], orphaned)
            && r'.Committed() == r.Committed() - TradeCost(ts[i])
  {
    hide QueuedCost, OpenCost, LiveCost, Release, OrderOk, TradeCost;
    var g, cost, rest := FamilyOf(ts[i].strategy), TradeCost(ts[i]), ts[..i] + ts[i + 1..];
    var r' := Release(r, g, cost);
    assert forall k | 0 <= k < |rest| :: TradeOk(rest[k]);
    assert Balanced(r, q, ts, orphaned, g);
    OpenRemove(ts, i, g);
    OpenNonNegative(rest, g);
    QueuedNonNegative(q, g);
    assert orphaned.Get(g) >= 0.0;
    ReleaseExact(r, g, cost);
    forall f
      ensures Balanced(r', q, rest, orphaned, f)
    {
      assert Balanced(r, q, ts, orphaned, f);
      OpenRemove(ts, i, f);
    }
  }

  // ----- Market close -----

  lemma OpenMark(ts: seq<Trade>, i: nat, f: Family)
    requires i < |ts|
    ensures var t, ts' := ts[i], ts[i := ts[i].(settling := true)];
            && OpenCost(ts', f) == OpenCost(ts, f)
            && LiveCost(ts', f)
               == LiveCost(ts, f) - (if FamilyOf(t.strategy) == f && !t.settling then TradeCost(t) else 0.0)
  {
    var t := ts[i].(settling := true);
    assert ts == ts[..i] + [ts[i]] + ts[i + 1..];
    assert ts[i := t] == ts[..i] + [t] + ts[i + 1..];
    SumAround(ts[..i], ts[i], ts[i + 1..], TradeWeight(f));
    SumAround(ts[..i], t, ts[i + 1..], TradeWeight(f));
    SumAround(ts[..i], ts[i], ts[i + 1..], UnsettledWeight(f));
    SumAround(ts[..i], t, ts[i + 1..], UnsettledWeight(f));
  }

  /** Reclassifying one trade keeps the books, and the committed total does not move. */
  lemma CloseOneConserves(r: Reserve, q: seq<Order>, ts: seq<Trade>, orphaned: PerFamily, i: nat)
    requires Conserved(r, q, ts, orphaned) && i < |ts|
    ensures var r' := Transition(r, FamilyOf(ts[i].strategy), TradeCost(ts[i]));
            && Conserved(r', q, ts[i := ts[i].(settling := true)], orphaned)
            && r'.Committed() == r.Committed()
  {
    hide QueuedCost, OpenCost, LiveCost, Transition, OrderOk, TradeCost;
    var g, cost, ts' := FamilyOf(ts[i].strategy), TradeCost(ts[i]), ts[i := ts[i].(settling := true)];
    var r' := Transition(r, g, cost);
    TransitionKeepsTotals(r, g, cost);
    MarkedCost(ts[i]);
    assert forall k | 0 <= k < |ts'| :: TradeOk(ts'[k]);
    forall f
      ensures Balanced(r', q, ts', orphaned, f)
    {
      assert Balanced(r, q, ts, orphaned, f);
      OpenMark(ts, i, f);
      OpenNonNegative(ts', f);
      QueuedNonNegative(q, f);
      assert orphaned.Get(f) >= 0.0;
    }
  }

  lemma MarkedCost(t: Trade)
    ensures TradeCost(t.(settling := true)) == TradeCost(t)
  {
  }

  // ----- Restart -----

  /** Rebuilding the reserve from the stored open trades reproduces exactly their cost. */
  lemma {:induction false} HydrateConserves(ts: seq<Trade>, now: nat)
    requires forall i | 0 <= i < |ts| :: TradeOk(ts[i])
    ensures Conserved(Bankroll.HydrateAll(EMPTY, Exposures(ts), now), [], Reclassified(ts, now), NOTHING)
  {
    var r := Bankroll.HydrateAll(EMPTY, Exposures(ts), now);
    if ts == [] {
      assert r == EMPTY && Reclassified(ts, now) == [];
      assert forall f :: Balanced(r, [], [], NOTHING, f);
    } else {
      var n := |ts| - 1;
      HydrateConserves(ts[..n], now);
      assert Exposures(ts)[..n] == Exposures(ts[..n]);
      assert Reclassified(ts, now) == Reclassified(ts[..n], now) + [Reclassify(ts[n], now)];
      HydrateOne(Bankroll.HydrateAll(EMPTY, Exposures(ts[..n]), now), Reclassified(ts[..n], now), ts[n], now);
    }
  }

  lemma HydrateOne(r: Reserve, ts: seq<Trade>, t: Trade, now: nat)
    requires Conserved(r, [], ts, NOTHING) && TradeOk(t)
    ensures Conserved(Bankroll.Hydrate(r, ExposureOf(t), now), [], ts + [Reclassify(t, now)], NOTHING)
  {
    hide QueuedCost, OpenCost, LiveCost, TradeCost;
    var r', t' := Bankroll.Hydrate(r, ExposureOf(t), now), Reclassify(t, now);
    ReclassifiedCost(t, now);
    forall f
      ensures Balanced(r', [], ts + [t'], NOTHING, f)
    {
      assert Balanced(r, [], ts, NOTHING, f);
      OpenPush(ts, t', f);
    }
  }

  lemma ReclassifiedCost(t: Trade, now: nat)
    ensures TradeCost(Reclassify(t, now)) == TradeCost(t) == Cost(ExposureOf(t).size, ExposureOf(t).entry)
  {
  }
}
