/** The gate on new trades: minimum balance, maximum drawdown, and the drawdown pause with its hysteresis. */
module DrawdownPause {
  import opened Settings

  datatype Pause = Pause(until: nat, armed: bool)

  datatype Verdict = Allowed | BelowMinimumBalance | MaxDrawdownExceeded | PauseActive

  const INITIAL := Pause(0, true)

  /** A disarmed pause is never running. */
  ghost predicate Valid(p: Pause) {
    !p.armed ==> p.until == 0
  }

  function RecoveryThreshold(c: Config): real {
    c.pausePct - c.recoveryPct
  }

  function Check(p: Pause, balance: real, drawdown: real, c: Config, now: nat): (Verdict, Pause) {
    if balance < c.minBalance then (BelowMinimumBalance, p)
    else if drawdown >= c.maxDrawdownPct then (MaxDrawdownExceeded, p)
    else
      var p1 := if drawdown < RecoveryThreshold(c) then Pause(0, true) else p;
      if drawdown >= c.pausePct && p1.armed then
        var until := if p1.until == 0 then now + c.pauseMs else p1.until;
        if now < until then (PauseActive, p1.(until := until)) else (Allowed, Pause(0, false))
      else if drawdown < c.pausePct then (Allowed, p1.(until := 0))
      else (Allowed, p1)
  }

  lemma CheckKeepsValid(p: Pause, balance: real, drawdown: real, c: Config, now: nat)
    requires Valid(p)
    ensures Valid(Check(p, balance, drawdown, c, now).1)
  {
  }

  /** Asking again at the same instant changes neither the answer nor the state. */
  lemma CheckIdempotent(p: Pause, balance: real, drawdown: real, c: Config, now: nat)
    requires Valid(p)
    ensures var (v, p') := Check(p, balance, drawdown, c, now);
            Check(p', balance, drawdown, c, now) == (v, p')
  {
  }

  // ----- Runs of calls -----

  datatype Call = Call(balance: real, drawdown: real, now: nat)

  function After(p: Pause, calls: seq<Call>, c: Config): Pause {
    if calls == [] then p
    else
      var last := calls[|calls| - 1];
      Check(After(p, calls[..|calls| - 1], c), last.balance, last.drawdown, c, last.now).1
  }

  function VerdictAt(p: Pause, calls: seq<Call>, c: Config, i: nat): Verdict
    requires i < |calls|
  {
    Check(After(p, calls[..i], c), calls[i].balance, calls[i].drawdown, c, calls[i].now).0
  }

  lemma {:induction false} ReachableValid(calls: seq<Call>, c: Config)
    ensures Valid(After(INITIAL, calls, c))
  {
    if calls != [] {
      var n := |calls| - 1;
      ReachableValid(calls[..n], c);
      CheckKeepsValid(After(INITIAL, calls[..n], c), calls[n].balance, calls[n].drawdown, c, calls[n].now);
    }
  }

  /** Once a pause has run out, no call is pause-blocked until drawdown falls below the recovery threshold. */
  lemma {:induction false} NoSecondPause(p: Pause, calls: seq<Call>, c: Config, n: nat)
    requires p == Pause(0, false)
    requires n <= |calls|
    requires forall i | 0 <= i < |calls| :: calls[i].drawdown >= RecoveryThreshold(c)
    ensures After(p, calls[..n], c) == p
    ensures n < |calls| ==> VerdictAt(p, calls, c, n) != PauseActive
  {
    if n > 0 {
      NoSecondPause(p, calls, c, n - 1);
      assert calls[..n][..n - 1] == calls[..n - 1];
    }
  }

  ghost predicate SteadyCalls(calls: seq<Call>, c: Config, drawdown: real) {
    && (forall i | 0 <= i < |calls| ::
          calls[i].balance >= c.minBalance && calls[i].drawdown == drawdown)
    && (forall i, j | 0 <= i <= j < |calls| :: calls[i].now <= calls[j].now)
    && c.pausePct <= drawdown < c.maxDrawdownPct
  }

  /**
   * Under a steady drawdown in the pause range an armed pause blocks exactly the calls made
   * within `pauseMs` of the first one, provided the drawdown is at or above the recovery threshold.
   */
  lemma {:induction false} SteadyPauseLength(calls: seq<Call>, c: Config, drawdown: real, n: nat)
    requires SteadyCalls(calls, c, drawdown) && drawdown >= RecoveryThreshold(c)
    requires n < |calls|
    ensures VerdictAt(INITIAL, calls, c, n) == if calls[n].now < calls[0].now + c.pauseMs then PauseActive else Allowed
    ensures After(INITIAL, calls[..n + 1], c)
         == if calls[n].now < calls[0].now + c.pauseMs then Pause(calls[0].now + c.pauseMs, true) else Pause(0, false)
  {
    assert calls[..n + 1][..n] == calls[..n];
    if n > 0 {
      SteadyPauseLength(calls, c, drawdown, n - 1);
      assert calls[n - 1].now <= calls[n].now;
      assert calls[0].now <= calls[n].now;
    } else {
      assert calls[..0] == [];
    }
  }

  /**
   * The proviso is needed. When the recovery margin is negative, a drawdown between the pause
   * level and the recovery threshold re-arms and restarts the pause on every call, so it never ends.
   */
  lemma {:induction false} NegativeRecoveryNeverEnds(calls: seq<Call>, c: Config, drawdown: real, p: Pause, n: nat)
    requires SteadyCalls(calls, c, drawdown) && drawdown < RecoveryThreshold(c)
    requires c.pauseMs > 0 && n < |calls|
    ensures VerdictAt(p, calls, c, n) == PauseActive
  {
  }

  /** Together: the pause has the configured length if and only if the drawdown is not in the re-arming band. */
  lemma SteadyPauseExact(calls: seq<Call>, c: Config, drawdown: real)
    requires SteadyCalls(calls, c, drawdown) && c.pauseMs > 0
    requires exists i | 0 <= i < |calls| :: calls[i].now >= calls[0].now + c.pauseMs
    ensures drawdown >= RecoveryThreshold(c)
       <==> forall i | 0 <= i < |calls| ::
              VerdictAt(INITIAL, calls, c, i) == PauseActive <==> calls[i].now < calls[0].now + c.pauseMs
  {
    if drawdown >= RecoveryThreshold(c) {
      forall i | 0 <= i < |calls|
        ensures VerdictAt(INITIAL, calls, c, i) == PauseActive <==> calls[i].now < calls[0].now + c.pauseMs
      {
        SteadyPauseLength(calls, c, drawdown, i);
      }
    } else {
      var i :| 0 <= i < |calls| && calls[i].now >= calls[0].now + c.pauseMs;
      NegativeRecoveryNeverEnds(calls, c, drawdown, INITIAL, i);
    }
  }
}
