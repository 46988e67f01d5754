/** The consecutive-loss breaker, proved equal to a function of the whole result history. */
module CircuitBreaker {

  datatype Result = Result(won: bool, at: nat)

  /** Length of the run of losses at the end of the history. */
  function TrailingLosses(h: seq<Result>): nat {
    if h == [] || h[|h| - 1].won then 0 else 1 + TrailingLosses(h[..|h| - 1])
  }

  function Streak(maxLosses: nat): nat {
    if maxLosses == 0 then 1 else maxLosses
  }

  /** Result `i` completes a streak: a loss whose run length is a positive multiple of the limit. */
  ghost predicate Trips(h: seq<Result>, maxLosses: nat, i: nat)
    requires i < |h|
  {
    !h[i].won && TrailingLosses(h[..i + 1]) % Streak(maxLosses) == 0
  }

  /** Result `i` is the latest one that completed a streak. */
  ghost predicate LatestTrip(h: seq<Result>, maxLosses: nat, i: nat)
    requires i < |h|
  {
    Trips(h, maxLosses, i) && forall j | i < j < |h| :: !Trips(h, maxLosses, j)
  }

  /** Trailing losses not yet spent on a completed streak. */
  function OpenRun(h: seq<Result>, maxLosses: nat): nat {
    TrailingLosses(h) % Streak(maxLosses)
  }

  /** The pause deadline that a history determines. */
  ghost predicate Deadline(h: seq<Result>, maxLosses: nat, pauseMs: nat, until: nat) {
    && ((forall i | 0 <= i < |h| :: !Trips(h, maxLosses, i)) ==> until == 0)
    && (forall i | 0 <= i < |h| && LatestTrip(h, maxLosses, i) :: until == h[i].at + pauseMs)
  }

  class Breaker {
    var consecutiveLosses: nat
    var pauseUntil: nat
    const maxLosses: nat
    const pauseMs: nat
    ghost var history: seq<Result>

    /** The two fields are determined by the history. */
    ghost predicate Valid()
      reads this
    {
      && consecutiveLosses == OpenRun(history, maxLosses)
      && Deadline(history, maxLosses, pauseMs, pauseUntil)
    }

    constructor (maxLosses: nat, pauseMs: nat)
      ensures Valid() && history == []
      ensures this.maxLosses == maxLosses && this.pauseMs == pauseMs
    {
      consecutiveLosses, pauseUntil := 0, 0;
      this.maxLosses, this.pauseMs := maxLosses, pauseMs;
      history := [];
    }

    method RecordResult(won: bool, now: nat)
      requires Valid()
      modifies this
      ensures Valid() && history == old(history) + [Result(won, now)]
    {
      hide OpenRun, Deadline, Trips;
      ghost var h := history;
      history := history + [Result(won, now)];
      OpenRunGrows(h, Result(won, now), maxLosses);
      DeadlineGrows(h, Result(won, now), maxLosses, pauseMs, pauseUntil);
      if won {
        consecutiveLosses := 0;
      } else {
        consecutiveLosses := consecutiveLosses + 1;
        if consecutiveLosses >= maxLosses {
          pauseUntil := now + pauseMs;
          consecutiveLosses := 0;
        }
      }
    }

    function CanTrade(now: nat): bool
      reads this
    {
      now >= pauseUntil
    }

    function IsPaused(now: nat): bool
      reads this
    {
      now < pauseUntil
    }

    /** Trading is blocked exactly within `pauseMs` of the latest completed streak. */
    lemma PausedExactly(now: nat)
      requires Valid()
      ensures IsPaused(now) <==>
                exists i | 0 <= i < |history| && LatestTrip(history, maxLosses, i) :: now < history[i].at + pauseMs
      ensures CanTrade(now) <==> !IsPaused(now)
    {
      if exists i | 0 <= i < |history| :: Trips(history, maxLosses, i) {
        var i :| 0 <= i < |history| && Trips(history, maxLosses, i);
        var k := LatestExists(history, maxLosses, i);
      }
    }
  }

  lemma TripsGrows(h: seq<Result>, r: Result, maxLosses: nat)
    ensures var h' := h + [r];
            && TrailingLosses(h') == (if r.won then 0 else 1 + TrailingLosses(h))
            && (Trips(h', maxLosses, |h|) <==> !r.won && OpenRun(h', maxLosses) == 0)
            && forall i | 0 <= i < |h| :: Trips(h', maxLosses, i) <==> Trips(h, maxLosses, i)
  {
    var h' := h + [r];
    assert h'[..|h|] == h && h'[..|h| + 1] == h';
    forall i | 0 <= i < |h|
      ensures Trips(h', maxLosses, i) <==> Trips(h, maxLosses, i)
    {
      assert h'[..i + 1] == h[..i + 1];
    }
  }

  lemma OpenRunGrows(h: seq<Result>, r: Result, maxLosses: nat)
    ensures var before, after := OpenRun(h, maxLosses), OpenRun(h + [r], maxLosses);
            after == if r.won || before + 1 >= maxLosses then 0 else before + 1
  {
    TripsGrows(h, r, maxLosses);
    if !r.won {
      StreakCounts(TrailingLosses(h), Streak(maxLosses));
    }
  }

  lemma DeadlineGrows(h: seq<Result>, r: Result, maxLosses: nat, pauseMs: nat, until: nat)
    requires Deadline(h, maxLosses, pauseMs, until)
    ensures var trips := !r.won && OpenRun(h + [r], maxLosses) == 0;
            Deadline(h + [r], maxLosses, pauseMs, if trips then r.at + pauseMs else until)
  {
    hide OpenRun, Trips;
    TripsGrows(h, r, maxLosses);
    var h' := h + [r];
    assert forall i | 0 <= i < |h'| :: i == |h| || h'[i] == h[i];
    if !Trips(h', maxLosses, |h|) {
      assert forall i | 0 <= i < |h| :: LatestTrip(h', maxLosses, i) ==> LatestTrip(h, maxLosses, i);
    }
  }

  /** Counting modulo the limit wraps exactly when the counter would reach it. */
  lemma StreakCounts(run: nat, limit: nat)
    requires limit > 0
    ensures (run + 1) % limit == if run % limit + 1 >= limit then 0 else run % limit + 1
  {
    var q, r := run / limit, run % limit;
    assert run == q * limit + r;
    if r + 1 >= limit {
      assert run + 1 == (q + 1) * limit;
      ModUnique(run + 1, limit, q + 1, 0);
    } else {
      ModUnique(run + 1, limit, q, r + 1);
    }
  }

  lemma ModUnique(x: nat, m: nat, q: nat, r: nat)
    requires 0 <= r < m && x == q * m + r
    ensures x % m == r
  {
    var d := x / m - q;
    assert x == (x / m) * m + x % m;
    assert d * m == r - x % m;
    if d != 0 { MulAway(d, m); }
  }

  lemma MulAway(d: int, m: int)
    requires d != 0 && m >= 0
    ensures d * m >= m || d * m <= -m
  {
  }

  lemma {:induction false} LatestExists(h: seq<Result>, maxLosses: nat, i: nat) returns (k: nat)
    requires i < |h| && Trips(h, maxLosses, i)
    ensures i <= k < |h| && LatestTrip(h, maxLosses, k)
    decreases |h| - i
  {
    if j :| i < j < |h| && Trips(h, maxLosses, j) {
      k := LatestExists(h, maxLosses, j);
    } else {
      k := i;
    }
  }
}
