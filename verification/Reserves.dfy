/**
 * Reserved capital, as the two buckets of each strategy family: `active` while the market is
 * open, `pending` while it awaits settlement. This is the meaning behind the global totals,
 * per-family maps and mirrors that `BankrollManager` keeps.
 */
module Reserves {
  import opened Basics
  import opened Settings

  datatype PerFamily = PerFamily(latency: real, spread: real, calm: real) {
    function Get(f: Family): real {
      match f
      case LatencyArb => latency
      case SpreadCapture => spread
      case CalmPersistence => calm
    }

    function Set(f: Family, x: real): PerFamily {
      match f
      case LatencyArb => this.(latency := x)
      case SpreadCapture => this.(spread := x)
      case CalmPersistence => this.(calm := x)
    }

    function Sum(): real {
      latency + spread + calm
    }

    predicate NonNegative() {
      latency >= 0.0 && spread >= 0.0 && calm >= 0.0
    }
  }

  const NOTHING := PerFamily(0.0, 0.0, 0.0)

  datatype Reserve = Reserve(active: PerFamily, pending: PerFamily) {
    predicate NonNegative() {
      active.NonNegative() && pending.NonNegative()
    }

    /** Raw committed exposure, undiscounted by any pending-settlement policy. */
    function Committed(): real {
      active.Sum() + pending.Sum()
    }

    function Family(f: Family): real {
      active.Get(f) + pending.Get(f)
    }
  }

  const EMPTY := Reserve(NOTHING, NOTHING)

  /** What one bucket gives up when `amount` is asked of it. */
  function Taken(bucket: real, amount: real): real {
    Max(Min(amount, bucket), 0.0)
  }

  function AddActive(r: Reserve, f: Family, amount: real): Reserve {
    r.(active := r.active.Set(f, r.active.Get(f) + amount))
  }

  function AddPending(r: Reserve, f: Family, amount: real): Reserve {
    r.(pending := r.pending.Set(f, r.pending.Get(f) + amount))
  }

  /** Free reserve of one family, from its active bucket first and its pending bucket after. */
  function Release(r: Reserve, f: Family, amount: real): Reserve {
    var a := Taken(r.active.Get(f), amount);
    var p := Taken(r.pending.Get(f), amount - a);
    Reserve(r.active.Set(f, r.active.Get(f) - a), r.pending.Set(f, r.pending.Get(f) - p))
  }

  /** Reclassify active reserve of one family as pending settlement. */
  function Transition(r: Reserve, f: Family, amount: real): Reserve {
    var moved := Taken(r.active.Get(f), amount);
    AddPending(r.(active := r.active.Set(f, r.active.Get(f) - moved)), f, moved)
  }

  /** Empty a bucket family by family in the fixed order; the result pairs it with the unmet amount. */
  function Drain(p: PerFamily, amount: real): (PerFamily, real) {
    var a := Max(amount, 0.0);
    var l := Taken(p.latency, a);
    var s := Taken(p.spread, a - l);
    var c := Taken(p.calm, a - l - s);
    (PerFamily(p.latency - l, p.spread - s, p.calm - c), a - l - s - c)
  }

  /** Free reserve without naming a family: every active bucket before any pending one. */
  function ReleaseAny(r: Reserve, amount: real): Reserve {
    var (active, unmet) := Drain(r.active, amount);
    Reserve(active, Drain(r.pending, unmet).0)
  }

  // ----- Laws -----

  /** A release that the family can cover frees exactly the amount, and touches no other family. */
  lemma ReleaseExact(r: Reserve, f: Family, amount: real)
    requires r.NonNegative() && 0.0 <= amount <= r.Family(f)
    ensures var r' := Release(r, f, amount);
            && r'.NonNegative()
            && r'.Family(f) == r.Family(f) - amount
            && r'.Committed() == r.Committed() - amount
            && r'.active.Get(f) == Max(r.active.Get(f) - amount, 0.0)
            && forall g | g != f :: r'.active.Get(g) == r.active.Get(g) && r'.pending.Get(g) == r.pending.Get(g)
  {
  }

  /** In general a release frees the smaller of the amount and what the family holds. */
  lemma ReleaseGeneral(r: Reserve, f: Family, amount: real)
    requires r.NonNegative()
    ensures var r' := Release(r, f, amount);
            && r'.NonNegative()
            && r'.Family(f) == r.Family(f) - Min(Max(amount, 0.0), r.Family(f))
            && (r'.active.Get(f) > 0.0 ==> r'.pending == r.pending)
  {
  }

  /** Reclassifying changes no family's total: the ceiling headroom cannot move under any policy. */
  lemma TransitionKeepsTotals(r: Reserve, f: Family, amount: real)
    requires r.NonNegative()
    ensures var r' := Transition(r, f, amount);
            && r'.NonNegative()
            && r'.Committed() == r.Committed()
            && (forall g :: r'.Family(g) == r.Family(g))
            && (amount >= 0.0 ==> r'.active.Get(f) == Max(r.active.Get(f) - amount, 0.0))
            && forall g | g != f :: r'.active.Get(g) == r.active.Get(g)
  {
  }

  /** A family-less release frees exactly the smaller of the amount and everything committed. */
  lemma ReleaseAnyExact(r: Reserve, amount: real)
    requires r.NonNegative()
    ensures ReleaseAny(r, amount).Committed() == r.Committed() - Min(Max(amount, 0.0), r.Committed())
  {
    hide Drain;
    var unmet := Drain(r.active, amount).1;
    DrainTotals(r.active, amount);
    DrainTotals(r.pending, unmet);
    assert r.active.Sum() >= 0.0 && r.pending.Sum() >= 0.0;
  }

  /** ... and touches pending reserve only once no family has active reserve left. */
  lemma ReleaseAnyActiveFirst(r: Reserve, amount: real)
    requires r.NonNegative()
    ensures ReleaseAny(r, amount).NonNegative()
    ensures ReleaseAny(r, amount).pending != r.pending ==> ReleaseAny(r, amount).active == NOTHING
  {
    hide Drain;
    DrainTotals(r.active, amount);
    DrainOrder(r.active, amount);
    DrainOrder(r.pending, Drain(r.active, amount).1);
  }

  lemma DrainTotals(p: PerFamily, amount: real)
    requires p.NonNegative()
    ensures var (p', unmet) := Drain(p, amount);
            && unmet == Max(Max(amount, 0.0) - p.Sum(), 0.0)
            && p'.Sum() == p.Sum() - (Max(amount, 0.0) - unmet)
  {
  }

  lemma DrainOrder(p: PerFamily, amount: real)
    requires p.NonNegative()
    ensures var (p', unmet) := Drain(p, amount);
            && p'.NonNegative()
            && (unmet > 0.0 ==> p' == NOTHING)
            && (amount <= 0.0 ==> p' == p)
  {
  }
}
