/** Spread legs stay together until they resolve, so the legging counters are exact. */
module Legging {
  import opened Basics
  import opened Executor
  import Reserves

  /** The two legs of one spread, next to each other in the queue. */
  ghost predicate Legs(u: Order, d: Order) {
    && u.group.Some? && d.group == u.group
    && u.side == Up && d.side == Down
    && u.arrival == d.arrival && u.market == d.market
  }

  /** The queue is made of one-sided orders and adjacent leg pairs with increasing group numbers in [lo, hi). */
  ghost predicate Paired(q: seq<Order>, lo: nat, hi: nat)
    decreases |q|
  {
    if q == [] then true
    else if q[0].group.None? then Paired(q[1..], lo, hi)
    else
      && |q| >= 2 && Legs(q[0], q[1])
      && lo <= q[0].group.value < hi
      && Paired(q[2..], q[0].group.value + 1, hi)
  }

  ghost predicate Waiting(q: seq<Order>, g: nat) {
    exists i | 0 <= i < |q| :: q[i].group == Some(g)
  }

  lemma {:induction false} PairedBounds(q: seq<Order>, lo: nat, hi: nat, g: nat)
    requires Paired(q, lo, hi) && Waiting(q, g)
    ensures lo <= g < hi
    decreases |q|
  {
    var i :| 0 <= i < |q| && q[i].group == Some(g);
    if q[0].group.None? {
      assert q[1..][i - 1].group == Some(g);
      PairedBounds(q[1..], lo, hi, g);
    } else if i >= 2 {
      assert q[2..][i - 2].group == Some(g);
      PairedBounds(q[2..], q[0].group.value + 1, hi, g);
    }
  }

  lemma {:induction false} PairedWeaken(q: seq<Order>, lo: nat, hi: nat, hi': nat)
    requires Paired(q, lo, hi) && hi <= hi'
    ensures Paired(q, lo, hi')
    decreases |q|
  {
    if q != [] {
      if q[0].group.None? { PairedWeaken(q[1..], lo, hi, hi'); }
      else { PairedWeaken(q[2..], q[0].group.value + 1, hi, hi'); }
    }
  }

  lemma {:induction false} PairedAppendSingle(q: seq<Order>, o: Order, lo: nat, hi: nat)
    requires Paired(q, lo, hi) && o.group.None?
    ensures Paired(q + [o], lo, hi)
    decreases |q|
  {
    var q' := q + [o];
    if q == [] {
      assert q'[1..] == [];
    } else if q[0].group.None? {
      assert q'[1..] == q[1..] + [o];
      PairedAppendSingle(q[1..], o, lo, hi);
    } else {
      assert q'[2..] == q[2..] + [o];
      PairedAppendSingle(q[2..], o, q[0].group.value + 1, hi);
    }
  }

  lemma {:induction false} PairedAppendPair(q: seq<Order>, u: Order, d: Order, lo: nat, hi: nat)
    requires Paired(q, lo, hi) && Legs(u, d) && lo <= hi <= u.group.value
    ensures Paired(q + [u, d], lo, u.group.value + 1)
    decreases |q|
  {
    var q' := q + [u, d];
    if q == [] {
      assert q'[2..] == [];
    } else if q[0].group.None? {
      assert q'[1..] == q[1..] + [u, d];
      PairedAppendPair(q[1..], u, d, lo, hi);
    } else {
      assert q'[2..] == q[2..] + [u, d];
      PairedAppendPair(q[2..], u, d, q[0].group.value + 1, hi);
    }
  }

  // ----- One pair in a batch -----

  /** Both legs are deferred, or both find no window, or both get a tracked outcome. */
  lemma DecideTogether(u: Order, d: Order, x: Context)
    requires Legs(u, d)
    ensures Decide(u, x).Defer? <==> Decide(d, x).Defer?
    ensures Decide(u, x).Miss? && !Decide(u, x).tracked <==> Decide(d, x).Miss? && !Decide(d, x).tracked
  {
    hide BookRejection, TickAligned, FillTooSmall, Cost;
  }

  function Filled(o: Order, x: Context): nat {
    if Decide(o, x).Fill? then 1 else 0
  }

  /** What one order does to the group bookkeeping when storage works. */
  lemma StepGroups(b: Batch, o: Order, x: Context, session: nat)
    requires !b.failed
    ensures var b' := StepOrder(b, o, x, NoFault, session);
            var d := Decide(o, x);
            && !b'.failed
            && b'.remaining == (if d.Defer? then b.remaining + [o] else b.remaining)
            && b'.stats.legging == b.stats.legging && b'.stats.residual == b.stats.residual
            && (d.Defer? ==> b' == b.(remaining := b'.remaining))
            && (d.Miss? ==>
                  && b'.legFills == b.legFills
                  && b'.groups == RecordGroup(b.groups, if d.tracked then o.group else None, false))
            && (d.Fill? ==>
                  && b'.groups == RecordGroup(b.groups, o.group, true)
                  && b'.legFills == if o.group.Some? then b.legFills + multiset{o.group.value} else b.legFills)
  {
    hide Decide, Reserves.Release, RecordGroup, Cost;
    if Decide(o, x).Fill? { FillWithinLimit(o, x); }
  }

  /** A pair that leaves the queue with tracked outcomes is recorded as (legs filled, 2). */
  lemma PairGroups(b: Batch, u: Order, d: Order, x: Context, session: nat)
    requires !b.failed && Legs(u, d) && u.group.value !in b.groups
    ensures var b2 := StepOrder(StepOrder(b, u, x, NoFault, session), d, x, NoFault, session);
            var g, n := u.group.value, Filled(u, x) + Filled(d, x);
            && !b2.failed
            && b2.stats.legging == b.stats.legging && b2.stats.residual == b.stats.residual
            && b2.legFills == b.legFills[g := b.legFills[g] + n]
            && (if Decide(u, x).Defer? then b2.remaining == b.remaining + [u, d] && b2.groups == b.groups && n == 0
                else
                  && b2.remaining == b.remaining
                  && (b2.groups == b.groups[g := (n, 2)] || (b2.groups == b.groups && n == 0)))
  {
    hide StepOrder, Decide;
    DecideTogether(u, d, x);
    StepGroups(b, u, x, session);
    StepGroups(StepOrder(b, u, x, NoFault, session), d, x, session);
  }

  // ----- The whole batch -----

  /** `fills0` is the fill history before the batch; groups below `lo` have been looked at. */
  ghost predicate GroupInv(b: Batch, lo: nat, fills0: multiset<nat>) {
    && !b.failed
    && Paired(b.remaining, 0, lo)
    && (forall g | g in b.groups :: g < lo && b.groups[g].1 == 2 && fills0[g] == 0 && !Waiting(b.remaining, g))
    && (forall g :: b.legFills[g] == fills0[g] + if g in b.groups then b.groups[g].0 else 0)
    && (forall g | Waiting(b.remaining, g) :: fills0[g] == 0)
  }

  lemma SingleKeeps(b: Batch, o: Order, x: Context, session: nat, lo: nat, fills0: multiset<nat>)
    requires GroupInv(b, lo, fills0) && o.group.None?
    ensures GroupInv(StepOrder(b, o, x, NoFault, session), lo, fills0)
  {
    hide StepOrder, Decide, Paired;
    StepGroups(b, o, x, session);
    PairedAppendSingle(b.remaining, o, 0, lo);
    forall g
      ensures Waiting(b.remaining + [o], g) <==> Waiting(b.remaining, g)
    {
      WaitingPush(b.remaining, [o], g);
    }
  }

  lemma WaitingPush(q: seq<Order>, more: seq<Order>, g: nat)
    ensures Waiting(q + more, g) <==> Waiting(q, g) || Waiting(more, g)
  {
    if Waiting(q, g) {
      var i :| 0 <= i < |q| && q[i].group == Some(g);
      assert (q + more)[i].group == Some(g);
    }
    if Waiting(more, g) {
      var i :| 0 <= i < |more| && more[i].group == Some(g);
      assert (q + more)[|q| + i].group == Some(g);
    }
  }

  lemma PairKeeps(b: Batch, u: Order, d: Order, x: Context, session: nat, lo: nat, fills0: multiset<nat>)
    requires GroupInv(b, lo, fills0) && Legs(u, d) && lo <= u.group.value && fills0[u.group.value] == 0
    ensures GroupInv(StepOrder(StepOrder(b, u, x, NoFault, session), d, x, NoFault, session), u.group.value + 1, fills0)
  {
    hide StepOrder, Decide, Paired;
    var g := u.group.value;
    PairGroups(b, u, d, x, session);
    PairedAppendPair(b.remaining, u, d, 0, lo);
    PairedWeaken(b.remaining, 0, lo, g + 1);
    if Waiting(b.remaining, g) { PairedBounds(b.remaining, 0, lo, g); }
    var b2 := StepOrder(StepOrder(b, u, x, NoFault, session), d, x, NoFault, session);
    assert Paired(b2.remaining, 0, g + 1);
    forall h
      ensures Waiting(b2.remaining, h) ==> Waiting(b.remaining, h) || (h == g && b2.groups == b.groups)
    {
      WaitingPush(b.remaining, [u, d], h);
    }
    forall h
      ensures b2.legFills[h] == fills0[h] + if h in b2.groups then b2.groups[h].0 else 0
    {
      assert b.legFills[h] == fills0[h] + if h in b.groups then b.groups[h].0 else 0;
    }
  }

  ghost predicate NoFaults(faults: seq<Fault>) {
    forall i | 0 <= i < |faults| :: faults[i] == NoFault
  }

  lemma {:induction false} BatchGroups(b: Batch, todo: seq<Order>, x: Context, faults: seq<Fault>, session: nat,
                                       lo: nat, hi: nat, fills0: multiset<nat>)
    requires GroupInv(b, lo, fills0) && Paired(todo, lo, hi) && lo <= hi
    requires |faults| == |todo| && NoFaults(faults)
    requires forall g | Waiting(todo, g) :: fills0[g] == 0
    ensures GroupInv(RunBatch(b, todo, x, faults, session), hi, fills0)
    ensures RunBatch(b, todo, x, faults, session).stats.legging == b.stats.legging
    ensures RunBatch(b, todo, x, faults, session).stats.residual == b.stats.residual
    decreases |todo|
  {
    hide StepOrder, GroupInv, Waiting;
    if todo == [] {
      GroupInvWeaken(b, lo, hi, fills0);
    } else if todo[0].group.None? {
      var b1 := StepOrder(b, todo[0], x, NoFault, session);
      NotFailed(b, lo, fills0);
      StepGroups(b, todo[0], x, session);
      SingleKeeps(b, todo[0], x, session, lo, fills0);
      WaitingTail(todo, 1);
      BatchGroups(b1, todo[1..], x, faults[1..], session, lo, hi, fills0);
    } else {
      var u, d, g := todo[0], todo[1], todo[0].group.value;
      var b1 := StepOrder(b, u, x, NoFault, session);
      var b2 := StepOrder(b1, d, x, NoFault, session);
      NotFailed(b, lo, fills0);
      StepGroups(b, u, x, session);
      StepGroups(b1, d, x, session);
      WaitingHead(todo);
      PairKeeps(b, u, d, x, session, lo, fills0);
      WaitingTail(todo, 2);
      BatchGroups(b2, todo[2..], x, faults[2..], session, g + 1, hi, fills0);
      assert todo[1..][1..] == todo[2..] && faults[1..][1..] == faults[2..];
      assert RunBatch(b, todo, x, faults, session) == RunBatch(b1, todo[1..], x, faults[1..], session);
      assert RunBatch(b1, todo[1..], x, faults[1..], session) == RunBatch(b2, todo[2..], x, faults[2..], session);
    }
  }

  lemma NotFailed(b: Batch, lo: nat, fills0: multiset<nat>)
    requires GroupInv(b, lo, fills0)
    ensures !b.failed
  {
  }

  lemma GroupInvWeaken(b: Batch, lo: nat, hi: nat, fills0: multiset<nat>)
    requires GroupInv(b, lo, fills0) && lo <= hi
    ensures GroupInv(b, hi, fills0)
  {
    PairedWeaken(b.remaining, 0, lo, hi);
  }

  lemma WaitingHead(q: seq<Order>)
    requires q != [] && q[0].group.Some?
    ensures Waiting(q, q[0].group.value)
  {
  }

  lemma WaitingTail(q: seq<Order>, n: nat)
    requires n <= |q|
    ensures forall g | Waiting(q[n..], g) :: Waiting(q, g)
  {
    forall g: nat | Waiting(q[n..], g)
      ensures Waiting(q, g)
    {
      var i :| 0 <= i < |q[n..]| && q[n..][i].group == Some(g);
      assert q[n + i].group == Some(g);
    }
  }

  // ----- Counting -----

  /** Groups that over the engine's life have had exactly one leg filled. */
  function OneLegged(fills: multiset<nat>): set<nat> {
    set g | g in fills && fills[g] == 1
  }

  /** The engine's per-batch count is exactly the growth of the set of one-legged groups. */
  lemma LeggedGrowth(b: Batch, lo: nat, fills0: multiset<nat>)
    requires GroupInv(b, lo, fills0)
    ensures |OneLegged(b.legFills)| == |OneLegged(fills0)| + |LeggedGroups(b.groups)|
  {
    hide Paired, Waiting;
    var before, more := OneLegged(fills0), LeggedGroups(b.groups);
    assert before !! more;
    forall g
      ensures g in OneLegged(b.legFills) <==> g in before + more
    {
      assert b.legFills[g] == fills0[g] + if g in b.groups then b.groups[g].0 else 0;
    }
    assert OneLegged(b.legFills) == before + more;
  }

  /** Everything the counters rest on, for one engine between calls. */
  ghost predicate LegsExact(e: Engine, fills: multiset<nat>) {
    && Paired(e.queue, 0, e.nextGroup)
    && (forall g | Waiting(e.queue, g) :: fills[g] == 0)
    && (forall g | g in fills :: g < e.nextGroup)
    && e.stats.legging == e.stats.residual == |OneLegged(fills)|
  }

  /** A batch without storage faults keeps the counters exact. */
  lemma BatchLegsExact(d: Desk, x: Context, faults: seq<Fault>, orphaned: Reserves.PerFamily, fills: multiset<nat>)
    requires |faults| == |d.engine.queue| && NoFaults(faults)
    requires LegsExact(d.engine, fills)
    ensures var b := DueBatch(d, x, faults, orphaned, fills);
            !b.failed && LegsExact(FinishBatch(d, b).engine, b.legFills)
  {
    hide RunBatch, Paired;
    var b0, b, hi := StartBatch(d, orphaned, fills), DueBatch(d, x, faults, orphaned, fills), d.engine.nextGroup;
    PairedNil(hi);
    BatchGroups(b0, d.engine.queue, x, faults, d.engine.session, 0, hi, fills);
    LeggedGrowth(b, hi, fills);
    forall g | g in b.legFills
      ensures g < hi
    {
      assert b.legFills[g] == fills[g] + if g in b.groups then b.groups[g].0 else 0;
    }
    forall g | Waiting(b.remaining, g)
      ensures b.legFills[g] == 0
    {
      assert g !in b.groups;
    }
  }

  lemma PairedNil(hi: nat)
    ensures Paired([], 0, 0) && Paired([], 0, hi)
  {
  }
}
