/** Whole runs of the user-stream monitor. */
module UserStreamRuns {
  import opened Basics
  import opened UserStream
  import opened UserStreamAlways

  /** An event together with the time at which it is delivered. */
  datatype Timed = Timed(event: Event, at: nat)

  ghost predicate LegalRun(m: Monitor, run: seq<Timed>, deps: Deps, clock: nat)
    decreases |run|
  {
    run == [] ||
    (&& clock <= run[0].at
     && (m.current.Some? ==> m.current.value in m.attempts)
     && Legal(m, run[0].event, deps, run[0].at)
     && LegalRun(Step(m, run[0].event, deps, run[0].at), run[1..], deps, run[0].at))
  }

  ghost function After(m: Monitor, run: seq<Timed>, deps: Deps, clock: nat): Monitor
    requires LegalRun(m, run, deps, clock)
    decreases |run|
  {
    if run == [] then m else After(Step(m, run[0].event, deps, run[0].at), run[1..], deps, run[0].at)
  }

  function EndTime(run: seq<Timed>, clock: nat): nat {
    if run == [] then clock else run[|run| - 1].at
  }

  predicate SocketCreated(e: Event) {
    match e
    case EnsureConnected(_, created) => created
    case Message(_, _, created) => created
    case Ready(_, created) => created
    case ReconnectFires(created) => created
    case _ => true
  }

  ghost predicate SocketsCreated(run: seq<Timed>) {
    forall i | 0 <= i < |run| :: SocketCreated(run[i].event)
  }

  lemma {:induction false} RunKeeps(m: Monitor, run: seq<Timed>, deps: Deps, clock: nat)
    requires SafeTiming(deps) && Inv(m, deps, clock) && LegalRun(m, run, deps, clock)
    ensures Inv(After(m, run, deps, clock), deps, EndTime(run, clock))
    ensures !Stranded(m) && SocketsCreated(run) ==> !Stranded(After(m, run, deps, clock))
    decreases |run|
  {
    hide Inv, Step, Legal, SafeTiming, Stranded;
    if run != [] {
      Later(m, deps, clock, run[0].at);
      EveryStep(m, run[0].event, deps, run[0].at);
      RunKeeps(Step(m, run[0].event, deps, run[0].at), run[1..], deps, run[0].at);
    }
  }

  /**
   * In every run with safe timing: if markets are desired and the monitor is open, then, as long as
   * socket creation has not thrown, there is exactly one of a current attempt and a scheduled reconnect.
   */
  lemma NoStrandedStream(run: seq<Timed>, deps: Deps)
    requires SafeTiming(deps) && LegalRun(FRESH, run, deps, 0) && SocketsCreated(run)
    ensures var m := After(FRESH, run, deps, 0);
            m.desired.Some? && !m.closed ==> m.current.Some? != m.timer
  {
    hide LegalRun, After, Superseded, WellFormed, FailuresSinceSuccess;
    FreshInv(deps);
    RunKeeps(FRESH, run, deps, 0);
  }

  // ----- Promises of every run, whatever the timing and whether or not sockets can be created -----

  lemma {:induction false} RunBase(m: Monitor, run: seq<Timed>, deps: Deps, clock: nat)
    requires Base(m) && LegalRun(m, run, deps, clock)
    ensures Base(After(m, run, deps, clock))
    decreases |run|
  {
    hide Base, Step, Legal;
    if run != [] {
      StepBase(m, run[0].event, deps, run[0].at);
      RunBase(Step(m, run[0].event, deps, run[0].at), run[1..], deps, run[0].at);
    }
  }

  lemma ReachedBase(run: seq<Timed>, deps: Deps)
    requires LegalRun(FRESH, run, deps, 0)
    ensures Base(After(FRESH, run, deps, 0))
  {
    hide LegalRun, After, Base;
    FreshBase();
    RunBase(FRESH, run, deps, 0);
  }

  /**
   * In every run, a connected phase means ok status and a live current attempt whose markets are the
   * subscription and the latest desired ones; a loop that has ended with an attempt in place leaves
   * just that; and the failure count is the number of failures since the last success.
   */
  lemma ConnectedMeansSubscribed(run: seq<Timed>, deps: Deps)
    requires LegalRun(FRESH, run, deps, 0)
    ensures var m := After(FRESH, run, deps, 0);
            && (m.phase == Connected ==>
                  && m.ok && m.current.Some? && m.current.value in m.attempts
                  && m.subscribed == m.attempts[m.current.value].markets && m.desired == Some(m.subscribed))
            && (m.current.Some? && m.awaiting.None? ==> m.phase == Connected)
            && m.failures == FailuresSinceSuccess(m.log)
  {
    hide LegalRun, After, Superseded, FailuresSinceSuccess;
    ReachedBase(run, deps);
  }

  /**
   * In every run, events of a superseded attempt change nothing but that socket's own open flag, and it
   * has no timer left.
   */
  lemma StaleEventsInert(run: seq<Timed>, e: Event, deps: Deps, now: nat)
    requires LegalRun(FRESH, run, deps, 0)
    requires var m := After(FRESH, run, deps, 0);
             Legal(m, e, deps, now) && OfAttempt(e) && m.current != Some(e.id)
    ensures var m := After(FRESH, run, deps, 0);
            && !IsTimer(e) && e.id in m.attempts && (m.current.Some? ==> m.current.value in m.attempts)
            && Step(m, e, deps, now) ==
                 if e.SocketOpen? then m.(attempts := m.attempts[e.id := m.attempts[e.id].(wasOpened := true)]) else m
  {
    hide LegalRun, After, Superseded, FailuresSinceSuccess, Step, Legal;
    ReachedBase(run, deps);
    StaleStep(After(FRESH, run, deps, 0), e, deps, now);
  }

  /** In every run, nothing after `close` leaves the closed phase, sets a timer or opens a socket. */
  lemma ClosedForGood(before: seq<Timed>, after: seq<Timed>, deps: Deps)
    requires LegalRun(FRESH, before, deps, 0) && After(FRESH, before, deps, 0).closed
    requires LegalRun(After(FRESH, before, deps, 0), after, deps, EndTime(before, 0))
    ensures var m := After(FRESH, before, deps, 0);
            var m' := After(m, after, deps, EndTime(before, 0));
            && m'.closed && m'.phase == Closed && !m'.ok && !m'.timer
            && m'.current.None? && m'.desired.None? && m'.nextId == m.nextId
  {
    hide LegalRun, After, Base;
    ReachedBase(before, deps);
    StaysShut(After(FRESH, before, deps, 0), after, deps, EndTime(before, 0));
  }

  lemma {:induction false} StaysShut(m: Monitor, run: seq<Timed>, deps: Deps, clock: nat)
    requires Base(m) && m.closed && LegalRun(m, run, deps, clock)
    ensures Shut(After(m, run, deps, clock)) && After(m, run, deps, clock).nextId == m.nextId
    decreases |run|
  {
    hide Step, Legal, FailuresSinceSuccess, Superseded;
    if run != [] {
      var e, now := run[0].event, run[0].at;
      StepBase(m, e, deps, now);
      ClosedStep(m, e, deps, now);
      StaysShut(Step(m, e, deps, now), run[1..], deps, now);
    }
  }

  // ----- Why the timing condition is needed -----

  /** The loop waits for an attempt that nothing can decide any more. */
  ghost predicate Stuck(m: Monitor) {
    && m.desired.Some? && !m.closed && m.current.None? && !m.timer && m.awaiting.Some?
    && forall id | id in m.attempts ::
         m.attempts[id].connectDue.None? && m.attempts[id].readyDue.None? && m.attempts[id].beatDue.None?
  }

  /** From such a state only `close` leads out: no other event ever opens a socket again. */
  lemma {:induction false} StuckForever(m: Monitor, run: seq<Timed>, deps: Deps, clock: nat)
    requires Stuck(m) && LegalRun(m, run, deps, clock)
    requires forall i | 0 <= i < |run| :: !run[i].event.Close?
    ensures var m' := After(m, run, deps, clock);
            Stuck(m') && m'.nextId == m.nextId
    decreases |run|
  {
    hide Step, Legal, Stuck;
    if run != [] {
      StuckStep(m, run[0].event, deps, run[0].at);
      StuckForever(Step(m, run[0].event, deps, run[0].at), run[1..], deps, run[0].at);
    }
  }

  lemma StuckStep(m: Monitor, e: Event, deps: Deps, now: nat)
    requires Stuck(m) && Legal(m, e, deps, now) && !e.Close? && (m.current.Some? ==> m.current.value in m.attempts)
    ensures Stuck(Step(m, e, deps, now)) && Step(m, e, deps, now).nextId == m.nextId
  {
  }

  /**
   * Whenever the timing is not safe there is a run, with every socket created, that ends stuck:
   * the first heartbeat fails while the attempt is still undecided, and the reconnect finds the
   * loop still waiting. So the stream cannot be stranded if and only if the timing is safe.
   */
  lemma UnsafeTimingSticks(deps: Deps) returns (run: seq<Timed>)
    requires !SafeTiming(deps)
    ensures LegalRun(FRESH, run, deps, 0) && SocketsCreated(run)
    ensures Stuck(After(FRESH, run, deps, 0))
  {
    var e0, e1 := EnsureConnected({"market"}, true), SocketOpen(1, true);
    var e2, e3 := Heartbeat(1, true, false), ReconnectFires(true);
    run := [Timed(e0, 0), Timed(e1, 0), Timed(e2, deps.ping), Timed(e3, deps.ping)];
    FirstAttempt(deps);
    var m2 := Opened(deps);
    HeartbeatFailsEarly(m2, deps);
    hide Step, Stuck, Legal, Opened, LegalRun, After;
    var m1 := Step(FRESH, e0, deps, 0);
    var m3 := Step(m2, e2, deps, deps.ping);
    EmptyRun(Step(m3, e3, deps, deps.ping), deps, deps.ping);
    OneStep(m3, [], e3, deps, deps.ping, deps.ping);
    OneStep(m2, [Timed(e3, deps.ping)], e2, deps, 0, deps.ping);
    OneStep(m1, [Timed(e2, deps.ping), Timed(e3, deps.ping)], e1, deps, 0, 0);
    OneStep(FRESH, [Timed(e1, 0), Timed(e2, deps.ping), Timed(e3, deps.ping)], e0, deps, 0, 0);
    assert run == [Timed(e0, 0)] + [Timed(e1, 0), Timed(e2, deps.ping), Timed(e3, deps.ping)];
    assert [Timed(e1, 0)] + [Timed(e2, deps.ping), Timed(e3, deps.ping)]
           == [Timed(e1, 0), Timed(e2, deps.ping), Timed(e3, deps.ping)];
    assert [Timed(e2, deps.ping)] + [Timed(e3, deps.ping)] == [Timed(e2, deps.ping), Timed(e3, deps.ping)];
    assert [Timed(e3, deps.ping)] + [] == [Timed(e3, deps.ping)];
  }

  lemma EmptyRun(m: Monitor, deps: Deps, clock: nat)
    ensures LegalRun(m, [], deps, clock) && After(m, [], deps, clock) == m
  {
  }

  /** A fresh monitor whose first socket has just opened, at time 0. */
  function Opened(deps: Deps): Monitor {
    var a := Attempt({"market"}, false, true, Some(deps.connectTimeout), Some(deps.grace), Some(deps.ping));
    FRESH.(desired := Some({"market"}), phase := Connecting, current := Some(1), attempts := map[1 := a],
           awaiting := Some(1),
           nextId := 1)
  }

  lemma FirstAttempt(deps: Deps)
    ensures var e0, e1 := EnsureConnected({"market"}, true), SocketOpen(1, true);
            && Legal(FRESH, e0, deps, 0)
            && var m1 := Step(FRESH, e0, deps, 0);
               && m1.current == Some(1) && 1 in m1.attempts
               && Legal(m1, e1, deps, 0) && Step(m1, e1, deps, 0) == Opened(deps)
  {
    var m1 := Step(FRESH, EnsureConnected({"market"}, true), deps, 0);
    assert m1.attempts == map[1 := Attempt({"market"}, false, false, Some(deps.connectTimeout), None, None)];
    assert m1.attempts[1 := Opened(deps).attempts[1]] == Opened(deps).attempts;
  }

  lemma HeartbeatFailsEarly(m: Monitor, deps: Deps)
    requires m == Opened(deps) && !SafeTiming(deps)
    ensures var e2, e3 := Heartbeat(1, true, false), ReconnectFires(true);
            && Legal(m, e2, deps, deps.ping) && m.current == Some(1) && 1 in m.attempts
            && var m3 := Step(m, e2, deps, deps.ping);
               && m3.current.None? && Legal(m3, e3, deps, deps.ping)
               && Stuck(Step(m3, e3, deps, deps.ping))
  {
    var m3 := Step(m, Heartbeat(1, true, false), deps, deps.ping);
    assert m3.timer && m3.awaiting == Some(1) && m3.current.None?;
  }

  lemma OneStep(m: Monitor, rest: seq<Timed>, e: Event, deps: Deps, clock: nat, now: nat)
    requires clock <= now && Legal(m, e, deps, now) && (m.current.Some? ==> m.current.value in m.attempts)
    requires LegalRun(Step(m, e, deps, now), rest, deps, now)
    ensures LegalRun(m, [Timed(e, now)] + rest, deps, clock)
    ensures After(m, [Timed(e, now)] + rest, deps, clock) == After(Step(m, e, deps, now), rest, deps, now)
  {
    assert ([Timed(e, now)] + rest)[1..] == rest;
  }

  /** A throwing socket constructor strands the stream while its status can still read ok. */
  lemma ThrowingSocketStrands(m: Monitor, markets: Markets, deps: Deps, now: nat)
    requires Inv(m, deps, now) && m.phase == Connected && markets != {} && markets != m.subscribed
    ensures var m1 := Step(m, EnsureConnected(markets, false), deps, now);
            && Stranded(m1) && m1.ok
            && (m.subscribed != {} ==> Stranded(Step(m1, EnsureConnected(m.subscribed, true), deps, now)))
  {
    hide FailuresSinceSuccess;
    EnsureStep(m, EnsureConnected(markets, false), deps, now);
  }

  // ----- The reconnect delay -----

  function Pow2(n: nat): nat {
    if n == 0 then 1 else 2 * Pow2(n - 1)
  }

  function BackoffMs(failures: nat, baseMs: nat, maxMs: nat): real {
    var exponent := if failures > 0 then failures - 1 else 0;
    Min((baseMs * Pow2(exponent)) as real, maxMs as real)
  }

  function RoundedDelay(ms: real): real {
    Max(1.0, Floor(ms + 0.5))
  }

  /** Spread a delay over 80% to 120% of itself; `random` is the draw from [0, 1). */
  function Jittered(ms: real, random: real): real {
    ms * (0.8 + random * 0.4)
  }

  function ReconnectDelay(failures: nat, baseMs: nat, maxMs: nat, random: real): real {
    RoundedDelay(Jittered(BackoffMs(failures, baseMs, maxMs), random))
  }

  /**
   * The delay is a whole number of milliseconds, at least one, within rounding of 80% to 120% of the
   * backoff; the backoff is the base after one failure, doubles with each further one, and stops at
   * the maximum.
   */
  lemma ReconnectDelayBounds(failures: nat, baseMs: nat, maxMs: nat, random: real)
    requires 0.0 <= random < 1.0
    ensures var d, b := ReconnectDelay(failures, baseMs, maxMs, random), BackoffMs(failures, baseMs, maxMs);
            && Whole(d) && Max(1.0, b * 0.8 - 0.5) <= d <= Max(1.0, b * 1.2 + 0.5)
            && 0.0 <= b <= maxMs as real
            && (failures <= 1 ==> b == Min(baseMs as real, maxMs as real))
            && (failures >= 1 ==> BackoffMs(failures + 1, baseMs, maxMs) == Min(b * 2.0, maxMs as real))
  {
    hide RoundedDelay, Jittered, Floor, BackoffMs;
    BackoffBounds(failures, baseMs, maxMs);
    JitterBound(BackoffMs(failures, baseMs, maxMs), random);
    RoundedBound(Jittered(BackoffMs(failures, baseMs, maxMs), random), BackoffMs(failures, baseMs, maxMs) * 0.8,
                 BackoffMs(failures, baseMs, maxMs) * 1.2);
  }

  lemma BackoffBounds(failures: nat, baseMs: nat, maxMs: nat)
    ensures 0.0 <= BackoffMs(failures, baseMs, maxMs) <= maxMs as real
    ensures failures <= 1 ==> BackoffMs(failures, baseMs, maxMs) == Min(baseMs as real, maxMs as real)
    ensures failures >= 1 ==>
              BackoffMs(failures + 1, baseMs, maxMs) == Min(BackoffMs(failures, baseMs, maxMs) * 2.0, maxMs as real)
  {
    if failures >= 1 {
      var x := baseMs * Pow2(failures - 1);
      assert baseMs * Pow2(failures) == 2 * x;
    }
  }

  lemma JitterBound(ms: real, random: real)
    requires 0.0 <= ms && 0.0 <= random < 1.0
    ensures ms * 0.8 <= Jittered(ms, random) <= ms * 1.2
  {
    var jitter := 0.8 + random * 0.4;
    MulLe(jitter, 1.2, ms);
    MulLe(0.8, jitter, ms);
  }

  lemma RoundedBound(x: real, low: real, high: real)
    requires low <= x <= high
    ensures var d := RoundedDelay(x);
            Whole(d) && Max(1.0, low - 0.5) <= d <= Max(1.0, high + 0.5)
  {
  }
}
