/**
 * The authenticated user-stream monitor as a state machine. One step is one event handler together
 * with the microtasks it releases, so the connect loop's promise is always seen at rest: `awaiting`
 * names the attempt whose promise the loop is waiting for, if the loop is running at all.
 */
module UserStream {
  import opened Basics

  /** A subscription: the source compares sorted, duplicate-free arrays, which is set equality. */
  type Markets = set<string>

  datatype Phase = Idle | Connecting | Reconnecting | Connected | Closed

  /** Timers hold their deadline while they are set. `settled` is the flag shared by the attempt's callbacks. */
  datatype Attempt = Attempt(
    markets: Markets,
    settled: bool,
    wasOpened: bool,
    connectDue: Option<nat>,
    readyDue: Option<nat>,
    beatDue: Option<nat>)

  datatype Entry = ConnectOk | ConnectFailed | Disconnected

  datatype Deps = Deps(connectTimeout: nat, grace: nat, ping: nat, staleness: nat)

  datatype Monitor = Monitor(
    desired: Option<Markets>,
    ok: bool,
    phase: Phase,
    failures: nat,
    subscribed: Markets,
    current: Option<nat>,
    attempts: map<nat, Attempt>,
    awaiting: Option<nat>,
    timer: bool,
    closed: bool,
    nextId: nat,
    lastEvent: Option<nat>,
    log: seq<Entry>)

  const FRESH := Monitor(None, false, Idle, 0, {}, None, map[], None, false, false, 0, None, [])

  // ----- Private methods -----

  function ClearTimers(a: Attempt): Attempt {
    a.(connectDue := None, readyDue := None, beatDue := None)
  }

  function ClearStartup(a: Attempt): Attempt {
    a.(connectDue := None, readyDue := None)
  }

  function ScheduleReconnect(m: Monitor): Monitor {
    if m.closed || m.desired.None? || m.timer then m else m.(timer := true)
  }

  /** What a failed or dropped attempt leaves: failed status, one more failure, a scheduled reconnect. */
  function Drop(m: Monitor, id: nat, entry: Entry): Monitor
    requires id in m.attempts
  {
    ScheduleReconnect(m.(
      attempts := m.attempts[id := ClearTimers(m.attempts[id])],
      ok := false,
      phase := if m.closed then Closed else Reconnecting,
      failures := m.failures + 1,
      log := m.log + [entry],
      current := None))
  }

  function FailAttempt(m: Monitor, id: nat): Monitor
    requires id in m.attempts
  {
    if m.current != Some(id) then m else Drop(m, id, ConnectFailed)
  }

  function MarkDisconnected(m: Monitor, id: nat): Monitor
    requires id in m.attempts
  {
    Drop(m, id, Disconnected)
  }

  /** The attempt's promise is rejected: a loop that waits for it ends with that error. */
  function RejectPromise(m: Monitor, id: nat): Monitor {
    if m.awaiting == Some(id) then m.(awaiting := None) else m
  }

  function CompleteFailure(m: Monitor, id: nat): Monitor
    requires id in m.attempts
  {
    if m.attempts[id].settled then m
    else
      var m1 := m.(attempts := m.attempts[id := m.attempts[id].(settled := true)]);
      RejectPromise(FailAttempt(m1, id), id)
  }

  function Dispose(m: Monitor, id: nat): Monitor
    requires id in m.attempts
  {
    if m.current != Some(id) then m
    else
      var m1 := m.(attempts := m.attempts[id := ClearTimers(m.attempts[id])], current := None);
      CompleteFailure(m1, id)
  }

  function DisposeCurrent(m: Monitor): Monitor
    requires m.current.Some? ==> m.current.value in m.attempts
  {
    if m.current.Some? then Dispose(m, m.current.value) else m
  }

  /** `created` is false when the socket constructor throws; the loop then ends with that error. */
  function OpenConnection(m: Monitor, markets: Markets, deps: Deps, now: nat, created: bool): Monitor
    requires m.current.Some? ==> m.current.value in m.attempts
  {
    var m1 := DisposeCurrent(m.(timer := false));
    var m2 := m1.(phase := if m1.phase == Reconnecting || m1.failures > 0 then Reconnecting else Connecting);
    if !created then m2.(awaiting := None) else StartAttempt(m2, markets, deps, now)
  }

  function StartAttempt(m: Monitor, markets: Markets, deps: Deps, now: nat): Monitor {
    var id := m.nextId + 1;
    m.(nextId := id, current := Some(id), awaiting := Some(id),
       attempts := m.attempts[id := Attempt(markets, false, false, Some(now + deps.connectTimeout), None, None)])
  }

  /** One turn of the connect loop, up to its next wait or its end. */
  function LoopTurn(m: Monitor, deps: Deps, now: nat, created: bool): Monitor
    requires m.current.Some? ==> m.current.value in m.attempts
  {
    if m.closed || m.desired.None? || (m.ok && m.subscribed == m.desired.value) then m.(awaiting := None)
    else OpenConnection(m, m.desired.value, deps, now, created)
  }

  /** The loop resumes after the attempt it waited for succeeded. */
  function ResumeLoop(m: Monitor, deps: Deps, now: nat, created: bool): Monitor
    requires m.current.Some? ==> m.current.value in m.attempts
  {
    if m.desired.None? || m.subscribed == m.desired.value then m.(awaiting := None)
    else LoopTurn(DisposeCurrent(m), deps, now, created)
  }

  function CompleteSuccess(m: Monitor, id: nat, deps: Deps, now: nat, created: bool): Monitor
    requires id in m.attempts
    requires m.current.Some? ==> m.current.value in m.attempts
  {
    var a := m.attempts[id];
    if a.settled then m
    else
      var m1 := m.(attempts := m.attempts[id := a.(settled := true)]);
      var m2 :=
        if m.current != Some(id) then m1 else MarkConnected(m1, id, now);
      if m2.awaiting == Some(id) then ResumeLoop(m2, deps, now, created) else m2
  }

  function MarkConnected(m: Monitor, id: nat, now: nat): Monitor
    requires id in m.attempts
  {
    var a := m.attempts[id];
    m.(attempts := m.attempts[id := ClearStartup(a)],
       ok := true, phase := Connected, lastEvent := Some(now), subscribed := a.markets, failures := 0,
       log := m.log + [ConnectOk])
  }

  // ----- Events -----

  datatype Event =
    | EnsureConnected(markets: Markets, created: bool)
    | Close
    | SocketOpen(id: nat, sent: bool)
    | Message(id: nat, error: bool, created: bool)
    | SocketError(id: nat)
    | SocketClosed(id: nat)
    | ConnectTimeout(id: nat)
    | Ready(id: nat, created: bool)
    | Heartbeat(id: nat, socketOpen: bool, sent: bool)
    | ReconnectFires(created: bool)

  predicate IsTimer(e: Event) {
    e.ConnectTimeout? || e.Ready? || e.Heartbeat?
  }

  /** The deadline of the timer that an event stands for. */
  function Due(a: Attempt, e: Event): Option<nat> {
    match e
    case ConnectTimeout(_) => a.connectDue
    case Ready(_, _) => a.readyDue
    case Heartbeat(_, _, _) => a.beatDue
    case _ => None
  }

  predicate NotEarlier(due: nat, other: Option<nat>) {
    other.Some? ==> due <= other.value
  }

  predicate ConnectFirst(a: Attempt, deps: Deps) {
    deps.connectTimeout == deps.ping && a.connectDue == a.beatDue
  }

  /**
   * What the runtime can deliver: socket events of sockets that were created, one open per socket,
   * set timers whose deadline has come, and never a timer before one with an earlier deadline. Timers
   * of one duration fire in the order they were set, so the connect timer goes before the heartbeat
   * when both run for the same time; other ties are delivered in either order.
   */
  predicate Legal(m: Monitor, e: Event, deps: Deps, now: nat) {
    match e
    case EnsureConnected(_, _) => true
    case Close => true
    case ReconnectFires(_) => m.timer
    case SocketOpen(id, _) => id in m.attempts && !m.attempts[id].wasOpened
    case Message(id, _, _) => id in m.attempts
    case SocketError(id) => id in m.attempts
    case SocketClosed(id) => id in m.attempts
    case _ =>
      && e.id in m.attempts
      && var a := m.attempts[e.id];
         && Due(a, e).Some? && Due(a, e).value <= now
         && NotEarlier(Due(a, e).value, a.connectDue)
         && NotEarlier(Due(a, e).value, a.readyDue)
         && NotEarlier(Due(a, e).value, a.beatDue)
         && !(e.Heartbeat? && ConnectFirst(a, deps))
  }

  predicate Stale(m: Monitor, deps: Deps, now: nat) {
    var window := if deps.staleness > 2 * deps.ping then deps.staleness else 2 * deps.ping;
    deps.staleness > 0 && m.lastEvent.Some? && now > m.lastEvent.value + window
  }

  function OnSocketOpen(m: Monitor, id: nat, deps: Deps, now: nat, sent: bool): Monitor
    requires id in m.attempts
  {
    var m1 := m.(attempts := m.attempts[id := m.attempts[id].(wasOpened := true)]);
    if m.current != Some(id) then m1
    else if !sent then CompleteFailure(m1, id)
    else
      var a := m1.attempts[id];
      var beat := if a.beatDue.Some? then a.beatDue else Some(now + deps.ping);
      m1.(attempts := m1.attempts[id := a.(beatDue := beat, readyDue := Some(now + deps.grace))])
  }

  function OnMessage(m: Monitor, id: nat, deps: Deps, now: nat, error: bool, created: bool): Monitor
    requires id in m.attempts
  {
    if m.current != Some(id) then m
    else
      var m1 := m.(lastEvent := Some(now));
      if error && !m.attempts[id].settled then CompleteFailure(m1, id) else CompleteSuccess(m1, id, deps, now, created)
  }

  function OnSocketEnd(m: Monitor, id: nat): Monitor
    requires id in m.attempts
  {
    if m.current != Some(id) then m
    else if !m.attempts[id].settled then CompleteFailure(m, id)
    else MarkDisconnected(m, id)
  }

  function OnHeartbeat(m: Monitor, id: nat, deps: Deps, now: nat, socketOpen: bool, sent: bool): Monitor
    requires id in m.attempts
  {
    var m1 := m.(attempts := m.attempts[id := m.attempts[id].(beatDue := Some(now + deps.ping))]);
    if m.current != Some(id) || !socketOpen then m1
    else if Stale(m, deps, now) || !sent then MarkDisconnected(m1, id)
    else m1
  }

  function OnEnsureConnected(m: Monitor, markets: Markets, deps: Deps, now: nat, created: bool): Monitor
    requires m.current.Some? ==> m.current.value in m.attempts
  {
    if markets == {} || m.closed then m
    else
      var m1 := m.(desired := Some(markets));
      if (m.ok && m.subscribed == markets) || m.awaiting.Some? then m1 else LoopTurn(m1, deps, now, created)
  }

  function OnReconnect(m: Monitor, deps: Deps, now: nat, created: bool): Monitor
    requires m.current.Some? ==> m.current.value in m.attempts
  {
    var m1 := m.(timer := false);
    if m.closed || m.desired.None? || m.awaiting.Some? then m1 else LoopTurn(m1, deps, now, created)
  }

  function OnClose(m: Monitor): Monitor
    requires m.current.Some? ==> m.current.value in m.attempts
  {
    DisposeCurrent(m.(closed := true, desired := None, timer := false)).(current := None, ok := false, phase := Closed)
  }

  ghost predicate WellFormed(m: Monitor) {
    && (m.current.Some? ==> m.current.value in m.attempts)
    && (forall id | id in m.attempts :: id <= m.nextId)
  }

  function Step(m: Monitor, e: Event, deps: Deps, now: nat): Monitor
    requires Legal(m, e, deps, now) && (m.current.Some? ==> m.current.value in m.attempts)
  {
    match e
    case EnsureConnected(markets, created) => OnEnsureConnected(m, markets, deps, now, created)
    case Close => OnClose(m)
    case SocketOpen(id, sent) => OnSocketOpen(m, id, deps, now, sent)
    case Message(id, error, created) => OnMessage(m, id, deps, now, error, created)
    case SocketError(id) => OnSocketEnd(m, id)
    case SocketClosed(id) => OnSocketEnd(m, id)
    case ConnectTimeout(id) => CompleteFailure(m.(attempts := m.attempts[id := m.attempts[id].(connectDue := None)]),
                                               id)
    case Ready(id, created) =>
      CompleteSuccess(m.(attempts := m.attempts[id := m.attempts[id].(readyDue := None)]), id, deps, now, created)
    case Heartbeat(id, socketOpen, sent) => OnHeartbeat(m, id, deps, now, socketOpen, sent)
    case ReconnectFires(created) => OnReconnect(m, deps, now, created)
  }

  // ----- Invariants -----

  /** Failures at the end of the log, since the last success. */
  function FailuresSinceSuccess(log: seq<Entry>): nat {
    if log == [] || log[|log| - 1] == ConnectOk then 0 else 1 + FailuresSinceSuccess(log[..|log| - 1])
  }

  /** A heartbeat can never be due before the attempt it belongs to has been decided. */
  predicate SafeTiming(deps: Deps) {
    deps.grace < deps.ping || deps.connectTimeout <= deps.ping
  }

  /** A superseded attempt has no timer left, and is decided unless the loop still waits for it. */
  ghost predicate Superseded(m: Monitor) {
    forall id | id in m.attempts && m.current != Some(id) ::
      var a := m.attempts[id];
      (a.settled || m.awaiting == Some(id)) && a.connectDue.None? && a.readyDue.None? && a.beatDue.None?
  }

  /** The current attempt: undecided and awaited by the loop, or decided and connected to what is desired. */
  ghost predicate CurrentOk(m: Monitor) {
    m.current.Some? ==>
      && m.current.value in m.attempts
      && var id, a := m.current.value, m.attempts[m.current.value];
         && !m.closed && !m.timer && m.desired.Some?
         && (if a.settled then
               && m.awaiting.None? && m.ok && m.phase == Connected
               && m.subscribed == a.markets && m.desired == Some(a.markets)
             else m.awaiting == Some(id) && m.phase != Connected && m.phase != Closed)
  }

  /** What holds at every event boundary, whatever the timing and whether or not sockets can be created. */
  ghost predicate Base(m: Monitor) {
    && WellFormed(m)
    && Superseded(m)
    && CurrentOk(m)
    && (m.awaiting.Some? ==> m.awaiting.value in m.attempts && !m.attempts[m.awaiting.value].settled)
    && (m.current.None? ==> m.phase != Connected)
    && (m.timer ==> !m.closed && m.desired.Some? && !m.ok)
    && (m.ok ==> m.desired.Some?)
    && (m.closed ==> m.desired.None? && !m.ok && m.phase == Closed)
    && m.failures == FailuresSinceSuccess(m.log)
  }

  /** An undecided attempt has a deadline, and once open that deadline comes before its first heartbeat. */
  ghost predicate Undecided(a: Attempt, deps: Deps, now: nat) {
    && a.connectDue.Some? && a.connectDue.value <= now + deps.connectTimeout
    && (a.wasOpened ==>
          && a.readyDue.Some? && a.beatDue.Some?
          && (a.readyDue.value < a.beatDue.value || a.connectDue.value < a.beatDue.value || ConnectFirst(a, deps)))
    && (!a.wasOpened ==> a.readyDue.None? && a.beatDue.None?)
  }

  /** What safe timing adds: the loop only waits for the current attempt, and that one will be decided. */
  ghost predicate Inv(m: Monitor, deps: Deps, now: nat) {
    && Base(m)
    && (m.current.None? ==> m.awaiting.None?)
    && (m.current.Some? && !m.attempts[m.current.value].settled ==> Undecided(m.attempts[m.current.value], deps, now))
  }

  lemma FreshInv(deps: Deps)
    ensures Inv(FRESH, deps, 0)
  {
  }

  lemma LogGrows(log: seq<Entry>, e: Entry)
    ensures FailuresSinceSuccess(log + [e]) == if e == ConnectOk then 0 else FailuresSinceSuccess(log) + 1
  {
    assert (log + [e])[..|log|] == log;
  }

  lemma Later(m: Monitor, deps: Deps, now: nat, later: nat)
    requires Inv(m, deps, now) && now <= later
    ensures Inv(m, deps, later)
  {
  }

  // ----- Losing, opening and replacing the current attempt -----

  /** No superseded attempt is left undecided or running. */
  ghost predicate Decided(m: Monitor) {
    forall id | id in m.attempts && m.current != Some(id) ::
      var a := m.attempts[id];
      a.settled && a.connectDue.None? && a.readyDue.None? && a.beatDue.None?
  }

  /** The bookkeeping every handler relies on, whatever the current attempt is going through. */
  ghost predicate Core(m: Monitor) {
    && WellFormed(m) && Decided(m)
    && !m.closed && m.desired.Some? && !m.timer
    && m.failures == FailuresSinceSuccess(m.log)
  }

  /** A connection lost: nothing is current and a reconnect is scheduled for the same markets. */
  ghost predicate Lost(m: Monitor, m': Monitor, deps: Deps, now: nat) {
    Inv(m', deps, now) && m'.timer && m'.current.None? && !m'.closed && m'.desired == m.desired && m'.nextId == m.nextId
  }

  lemma DropKeeps(m: Monitor, id: nat, entry: Entry, deps: Deps, now: nat)
    requires Core(m) && m.current == Some(id) && m.attempts[id].settled && entry != ConnectOk
    ensures Lost(m, Drop(m, id, entry).(awaiting := None), deps, now)
  {
    LogGrows(m.log, entry);
  }

  /** An undecided current attempt fails: the loop ends and a reconnect is scheduled. */
  lemma FailureKeeps(m: Monitor, id: nat, deps: Deps, now: nat)
    requires Core(m) && m.current == Some(id) && !m.attempts[id].settled && m.awaiting == Some(id)
    ensures Lost(m, CompleteFailure(m, id), deps, now)
  {
    hide FailuresSinceSuccess;
    var m1 := m.(attempts := m.attempts[id := m.attempts[id].(settled := true)]);
    DropKeeps(m1, id, ConnectFailed, deps, now);
  }

  lemma DisconnectKeeps(m: Monitor, id: nat, deps: Deps, now: nat)
    requires Core(m) && m.current == Some(id) && m.attempts[id].settled && m.awaiting.None?
    ensures Lost(m, MarkDisconnected(m, id), deps, now)
  {
    hide FailuresSinceSuccess;
    DropKeeps(m, id, Disconnected, deps, now);
  }

  /** Opening from a state with no undecided attempt: an attempt becomes current exactly when the socket is created. */
  lemma OpenKeeps(m: Monitor, markets: Markets, deps: Deps, now: nat, created: bool)
    requires Core(m.(timer := false)) && (m.current.Some? ==> m.attempts[m.current.value].settled)
    ensures var m' := OpenConnection(m, markets, deps, now, created);
            && Inv(m', deps, now) && !m'.timer && !m'.closed && m'.desired == m.desired
            && (m'.current.Some? <==> created)
            && (m'.nextId != m.nextId <==> created)
  {
    hide FailuresSinceSuccess;
    var m1 := DisposeCurrent(m.(timer := false));
    assert m1.current.None? && Decided(m1) && WellFormed(m1);
  }

  /** A success either ends the loop with the desired subscription in place, or replaces the attempt at once. */
  lemma SuccessKeeps(m: Monitor, id: nat, deps: Deps, now: nat, created: bool)
    requires Core(m) && m.current == Some(id) && !m.attempts[id].settled && m.awaiting == Some(id)
    ensures var m' := CompleteSuccess(m, id, deps, now, created);
            && Inv(m', deps, now) && !m'.timer && !m'.closed && m'.desired == m.desired
            && (m.desired == Some(m.attempts[id].markets) ==>
                  m'.current == Some(id) && m'.awaiting.None? && m'.nextId == m.nextId)
            && (m.desired != Some(m.attempts[id].markets) ==>
                  (m'.current.Some? <==> created) && (m'.nextId != m.nextId <==> created))
  {
    LogGrows(m.log, ConnectOk);
    hide FailuresSinceSuccess;
    var a := m.attempts[id];
    var m1 := m.(attempts := m.attempts[id := a.(settled := true)]);
    var m2 := MarkConnected(m1, id, now);
    assert CompleteSuccess(m, id, deps, now, created) == ResumeLoop(m2, deps, now, created);
    if m.desired != Some(a.markets) {
      var m3 := DisposeCurrent(m2);
      assert m3.current.None? && Decided(m3) && WellFormed(m3);
      OpenKeeps(m3, m.desired.value, deps, now, created);
    }
  }

  // ----- Each event keeps the invariant -----

  lemma InvCore(m: Monitor, deps: Deps, now: nat)
    requires Inv(m, deps, now) && m.current.Some?
    ensures Core(m)
    ensures var id := m.current.value;
            if m.attempts[id].settled then m.awaiting.None?
            else m.awaiting == Some(id) && Undecided(m.attempts[id], deps, now)
  {
  }

  /** The event would have the loop create a socket. */
  predicate Creates(m: Monitor, e: Event) {
    match e
    case EnsureConnected(markets, _) =>
      markets != {} && !m.closed && !(m.ok && m.subscribed == markets) && m.awaiting.None?
    case ReconnectFires(_) => true
    case Message(id, error, _) =>
      && m.current == Some(id) && id in m.attempts && !m.attempts[id].settled && !error
      && m.desired != Some(m.attempts[id].markets)
    case Ready(id, _) =>
      && m.current == Some(id) && id in m.attempts && !m.attempts[id].settled
         && m.desired != Some(m.attempts[id].markets)
    case _ => false
  }

  /** Markets are wanted, the monitor is open, and nothing will ever bring the stream back by itself. */
  ghost predicate Stranded(m: Monitor) {
    m.desired.Some? && !m.closed && m.current.None? && !m.timer
  }

  /** What one event does: it keeps the invariant and strands the stream exactly when a socket constructor throws. */
  ghost predicate GoodStep(m: Monitor, e: Event, m': Monitor, deps: Deps, now: nat) {
    && Inv(m', deps, now)
    && (!Stranded(m) ==> (Stranded(m') <==> Creates(m, e) && !e.created))
    && (m'.nextId != m.nextId <==> Creates(m, e) && e.created)
  }

  lemma EnsureStep(m: Monitor, e: Event, deps: Deps, now: nat)
    requires Inv(m, deps, now) && e.EnsureConnected?
    ensures GoodStep(m, e, Step(m, e, deps, now), deps, now)
  {
    hide FailuresSinceSuccess;
    if e.markets != {} && !m.closed {
      var m1 := m.(desired := Some(e.markets));
      if Creates(m, e) {
        OpenKeeps(m1, e.markets, deps, now, e.created);
      }
    }
  }

  lemma ReconnectStep(m: Monitor, e: Event, deps: Deps, now: nat)
    requires Inv(m, deps, now) && e.ReconnectFires? && Legal(m, e, deps, now)
    ensures GoodStep(m, e, Step(m, e, deps, now), deps, now)
  {
    hide FailuresSinceSuccess;
    var m1 := m.(timer := false);
    OpenKeeps(m1, m1.desired.value, deps, now, e.created);
  }

  lemma CloseStep(m: Monitor, deps: Deps, now: nat)
    requires Inv(m, deps, now)
    ensures GoodStep(m, Close, Step(m, Close, deps, now), deps, now)
    ensures Step(m, Close, deps, now).closed
  {
    hide FailuresSinceSuccess;
  }

  lemma OpenStep(m: Monitor, e: Event, deps: Deps, now: nat)
    requires Inv(m, deps, now) && e.SocketOpen? && Legal(m, e, deps, now) && SafeTiming(deps)
    ensures GoodStep(m, e, Step(m, e, deps, now), deps, now)
  {
    hide FailuresSinceSuccess;
    var id := e.id;
    var m1 := m.(attempts := m.attempts[id := m.attempts[id].(wasOpened := true)]);
    if m.current == Some(id) && !e.sent && !m.attempts[id].settled {
      InvCore(m, deps, now);
      assert Core(m1);
      FailureKeeps(m1, id, deps, now);
    }
  }

  lemma MessageStep(m: Monitor, e: Event, deps: Deps, now: nat)
    requires Inv(m, deps, now) && e.Message? && Legal(m, e, deps, now)
    ensures GoodStep(m, e, Step(m, e, deps, now), deps, now)
  {
    hide FailuresSinceSuccess;
    var id := e.id;
    if m.current == Some(id) && !m.attempts[id].settled {
      InvCore(m, deps, now);
      var m1 := m.(lastEvent := Some(now));
      assert Core(m1);
      if e.error { FailureKeeps(m1, id, deps, now); } else { SuccessKeeps(m1, id, deps, now, e.created); }
    }
  }

  lemma EndStep(m: Monitor, e: Event, deps: Deps, now: nat)
    requires Inv(m, deps, now) && (e.SocketError? || e.SocketClosed?) && Legal(m, e, deps, now)
    ensures GoodStep(m, e, Step(m, e, deps, now), deps, now)
  {
    hide FailuresSinceSuccess;
    if m.current == Some(e.id) {
      InvCore(m, deps, now);
      if m.attempts[e.id].settled { DisconnectKeeps(m, e.id, deps, now); } else { FailureKeeps(m, e.id, deps, now); }
    }
  }

  /** A set timer belongs to the current attempt. */
  lemma TimerIsCurrent(m: Monitor, e: Event, deps: Deps, now: nat)
    requires Superseded(m) && IsTimer(e) && Legal(m, e, deps, now)
    ensures m.current == Some(e.id)
  {
  }

  lemma StartupTimerStep(m: Monitor, e: Event, deps: Deps, now: nat)
    requires Inv(m, deps, now) && (e.ConnectTimeout? || e.Ready?) && Legal(m, e, deps, now)
    ensures GoodStep(m, e, Step(m, e, deps, now), deps, now)
  {
    hide FailuresSinceSuccess;
    TimerIsCurrent(m, e, deps, now);
    InvCore(m, deps, now);
    var id, a := e.id, m.attempts[e.id];
    var m1 := m.(attempts := m.attempts[id := if e.Ready? then a.(readyDue := None) else a.(connectDue := None)]);
    assert Core(m1);
    if !a.settled {
      if e.Ready? { SuccessKeeps(m1, id, deps, now, e.created); } else { FailureKeeps(m1, id, deps, now); }
    }
  }

  /** A heartbeat only ever meets a decided attempt. */
  lemma HeartbeatDecided(m: Monitor, e: Event, deps: Deps, now: nat)
    requires Inv(m, deps, now) && e.Heartbeat? && Legal(m, e, deps, now)
    ensures m.current == Some(e.id) && m.attempts[e.id].settled
  {
    hide FailuresSinceSuccess;
    TimerIsCurrent(m, e, deps, now);
    InvCore(m, deps, now);
  }

  lemma HeartbeatStep(m: Monitor, e: Event, deps: Deps, now: nat)
    requires Inv(m, deps, now) && e.Heartbeat? && Legal(m, e, deps, now)
    ensures GoodStep(m, e, Step(m, e, deps, now), deps, now)
  {
    hide FailuresSinceSuccess;
    HeartbeatDecided(m, e, deps, now);
    InvCore(m, deps, now);
    var id := e.id;
    var m1 := m.(attempts := m.attempts[id := m.attempts[id].(beatDue := Some(now + deps.ping))]);
    assert Core(m1);
    if e.socketOpen && (Stale(m, deps, now) || !e.sent) {
      DisconnectKeeps(m1, id, deps, now);
    }
  }

  lemma EveryStep(m: Monitor, e: Event, deps: Deps, now: nat)
    requires Inv(m, deps, now) && Legal(m, e, deps, now) && SafeTiming(deps)
    ensures GoodStep(m, e, Step(m, e, deps, now), deps, now)
  {
    hide Inv, Step, GoodStep, Legal, SafeTiming;
    match e
    case EnsureConnected(_, _) => EnsureStep(m, e, deps, now);
    case Close => CloseStep(m, deps, now);
    case SocketOpen(_, _) => OpenStep(m, e, deps, now);
    case Message(_, _, _) => MessageStep(m, e, deps, now);
    case SocketError(_) => EndStep(m, e, deps, now);
    case SocketClosed(_) => EndStep(m, e, deps, now);
    case ConnectTimeout(_) => StartupTimerStep(m, e, deps, now);
    case Ready(_, _) => StartupTimerStep(m, e, deps, now);
    case Heartbeat(_, _, _) => HeartbeatStep(m, e, deps, now);
    case ReconnectFires(_) => ReconnectStep(m, e, deps, now);
  }
}
