/** What every event keeps, with no assumption on timing or on whether sockets can be created. */
module UserStreamAlways {
  import opened Basics
  import opened UserStream

  lemma FreshBase()
    ensures Base(FRESH)
  {
  }

  // ----- Losing, opening and replacing the current attempt -----

  lemma DropBase(m: Monitor, id: nat, entry: Entry)
    requires Base(m) && m.current == Some(id) && entry != ConnectOk
    ensures Base(Drop(m, id, entry))
  {
    LogGrows(m.log, entry);
    hide FailuresSinceSuccess;
  }

  lemma FailureBase(m: Monitor, id: nat)
    requires Base(m) && m.current == Some(id) && !m.attempts[id].settled
    ensures Base(CompleteFailure(m, id))
    ensures CompleteFailure(m, id).nextId == m.nextId && CompleteFailure(m, id).closed == m.closed
  {
    LogGrows(m.log, ConnectFailed);
    hide FailuresSinceSuccess;
  }

  /** Everything but an undecided attempt that the loop is done with: the state in which it opens a connection. */
  ghost predicate Free(m: Monitor) {
    && WellFormed(m) && Decided(m)
    && !m.closed && m.desired.Some?
    && (m.current.Some? ==> m.attempts[m.current.value].settled)
    && (m.timer ==> !m.ok)
    && m.failures == FailuresSinceSuccess(m.log)
  }

  lemma OpenBase(m: Monitor, markets: Markets, deps: Deps, now: nat, created: bool)
    requires Free(m) && m.desired == Some(markets)
    ensures Base(OpenConnection(m, markets, deps, now, created))
  {
    hide FailuresSinceSuccess;
    var m1 := DisposeCurrent(m.(timer := false));
    assert m1.current.None? && Decided(m1) && WellFormed(m1);
  }

  lemma SuccessBase(m: Monitor, id: nat, deps: Deps, now: nat, created: bool)
    requires Base(m) && m.current == Some(id) && !m.attempts[id].settled
    ensures Base(CompleteSuccess(m, id, deps, now, created))
  {
    LogGrows(m.log, ConnectOk);
    hide FailuresSinceSuccess;
    var a := m.attempts[id];
    var m2 := MarkConnected(m.(attempts := m.attempts[id := a.(settled := true)]), id, now);
    assert CompleteSuccess(m, id, deps, now, created) == ResumeLoop(m2, deps, now, created);
    if m.desired != Some(a.markets) {
      var m3 := DisposeCurrent(m2);
      assert m3.current.None? && Decided(m3) && WellFormed(m3);
      OpenBase(m3, m.desired.value, deps, now, created);
    }
  }

  // ----- Each event -----

  lemma LoopBase(m: Monitor, deps: Deps, now: nat, created: bool)
    requires m.awaiting.None? && Free(m)
    requires m.ok && m.subscribed == m.desired.value ==> Base(m)
    ensures Base(LoopTurn(m, deps, now, created))
  {
    hide FailuresSinceSuccess;
    if !(m.ok && m.subscribed == m.desired.value) {
      OpenBase(m, m.desired.value, deps, now, created);
    }
  }

  lemma EnsureBase(m: Monitor, e: Event, deps: Deps, now: nat)
    requires Base(m) && e.EnsureConnected?
    ensures Base(Step(m, e, deps, now))
  {
    hide FailuresSinceSuccess;
    if e.markets != {} && !m.closed {
      var m1 := m.(desired := Some(e.markets));
      if !((m.ok && m.subscribed == e.markets) || m.awaiting.Some?) {
        LoopBase(m1, deps, now, e.created);
      }
    }
  }

  lemma ReconnectBase(m: Monitor, e: Event, deps: Deps, now: nat)
    requires Base(m) && e.ReconnectFires? && Legal(m, e, deps, now)
    ensures Base(Step(m, e, deps, now))
  {
    hide FailuresSinceSuccess;
    if m.awaiting.None? {
      LoopBase(m.(timer := false), deps, now, e.created);
    }
  }

  lemma CloseBase(m: Monitor)
    requires Base(m)
    ensures Base(OnClose(m)) && OnClose(m).closed && OnClose(m).nextId == m.nextId
  {
    hide FailuresSinceSuccess;
  }

  lemma SocketBase(m: Monitor, e: Event, deps: Deps, now: nat)
    requires Base(m) && (e.SocketOpen? || e.SocketError? || e.SocketClosed?) && Legal(m, e, deps, now)
    ensures Base(Step(m, e, deps, now))
  {
    hide FailuresSinceSuccess;
    var id := e.id;
    if m.current == Some(id) {
      if e.SocketOpen? {
        if !e.sent && !m.attempts[id].settled {
          FailureBase(m.(attempts := m.attempts[id := m.attempts[id].(wasOpened := true)]), id);
        }
      } else if m.attempts[id].settled {
        DropBase(m, id, Disconnected);
      } else {
        FailureBase(m, id);
      }
    }
  }

  lemma MessageBase(m: Monitor, e: Event, deps: Deps, now: nat)
    requires Base(m) && e.Message? && Legal(m, e, deps, now)
    ensures Base(Step(m, e, deps, now))
  {
    hide FailuresSinceSuccess;
    if m.current == Some(e.id) && !m.attempts[e.id].settled {
      var m1 := m.(lastEvent := Some(now));
      if e.error { FailureBase(m1, e.id); } else { SuccessBase(m1, e.id, deps, now, e.created); }
    }
  }

  lemma RearmBase(m: Monitor, id: nat, beat: nat)
    requires Base(m) && m.current == Some(id)
    ensures Base(m.(attempts := m.attempts[id := m.attempts[id].(beatDue := Some(beat))]))
  {
    hide FailuresSinceSuccess;
  }

  lemma BaseSuperseded(m: Monitor)
    requires Base(m)
    ensures Superseded(m)
  {
  }

  lemma HeartbeatBase(m: Monitor, e: Event, deps: Deps, now: nat)
    requires Base(m) && e.Heartbeat? && Legal(m, e, deps, now)
    ensures Base(Step(m, e, deps, now))
  {
    hide Base, Drop, Superseded, Stale, Legal;
    BaseSuperseded(m);
    BaseLinked(m);
    TimerIsCurrent(m, e, deps, now);
    RearmBase(m, e.id, now + deps.ping);
    var m1 := m.(attempts := m.attempts[e.id := m.attempts[e.id].(beatDue := Some(now + deps.ping))]);
    if e.socketOpen && (Stale(m, deps, now) || !e.sent) { DropBase(m1, e.id, Disconnected); }
  }

  lemma StartupTimerBase(m: Monitor, e: Event, deps: Deps, now: nat)
    requires Base(m) && (e.ConnectTimeout? || e.Ready?) && Legal(m, e, deps, now)
    ensures Base(Step(m, e, deps, now))
  {
    hide FailuresSinceSuccess;
    TimerIsCurrent(m, e, deps, now);
    var id, a := e.id, m.attempts[e.id];
    var m1 := m.(attempts := m.attempts[id := if e.Ready? then a.(readyDue := None) else a.(connectDue := None)]);
    assert Base(m1);
    hide Base;
    if !a.settled {
      if e.Ready? { SuccessBase(m1, id, deps, now, e.created); } else { FailureBase(m1, id); }
    }
  }

  lemma StepBase(m: Monitor, e: Event, deps: Deps, now: nat)
    requires Base(m) && Legal(m, e, deps, now)
    ensures Base(Step(m, e, deps, now))
  {
    hide Base, Step, Legal;
    BaseLinked(m);
    match e
    case EnsureConnected(_, _) => EnsureBase(m, e, deps, now);
    case Close => CloseStepBase(m, deps, now);
    case SocketOpen(_, _) => SocketBase(m, e, deps, now);
    case Message(_, _, _) => MessageBase(m, e, deps, now);
    case SocketError(_) => SocketBase(m, e, deps, now);
    case SocketClosed(_) => SocketBase(m, e, deps, now);
    case ConnectTimeout(_) => StartupTimerBase(m, e, deps, now);
    case Ready(_, _) => StartupTimerBase(m, e, deps, now);
    case Heartbeat(_, _, _) => HeartbeatBase(m, e, deps, now);
    case ReconnectFires(_) => ReconnectBase(m, e, deps, now);
  }

  lemma BaseLinked(m: Monitor)
    requires Base(m)
    ensures m.current.Some? ==> m.current.value in m.attempts
  {
  }

  lemma CloseStepBase(m: Monitor, deps: Deps, now: nat)
    requires Base(m)
    ensures Base(Step(m, Close, deps, now))
  {
    CloseBase(m);
  }

  // ----- The promises of one event -----

  /** The event belongs to one attempt. */
  predicate OfAttempt(e: Event) {
    e.SocketOpen? || e.Message? || e.SocketError? || e.SocketClosed? || IsTimer(e)
  }

  /** Connected means subscribed to what is desired, on a live attempt; the failure count is the log's. */
  ghost predicate Honest(m: Monitor) {
    && (m.phase == Connected ==>
          && m.ok && m.current.Some? && m.current.value in m.attempts
          && m.subscribed == m.attempts[m.current.value].markets && m.desired == Some(m.subscribed))
    && (m.current.Some? && m.awaiting.None? ==> m.phase == Connected)
    && m.failures == FailuresSinceSuccess(m.log)
  }

  /** Closed for good: no status, no wish, no attempt, no timer. */
  ghost predicate Shut(m: Monitor) {
    m.closed && m.phase == Closed && !m.ok && !m.timer && m.current.None? && m.desired.None?
  }

  /** An event of a superseded attempt leaves at most that socket's own opened flag behind. */
  ghost predicate Inert(m: Monitor, e: Event, m': Monitor) {
    OfAttempt(e) && m.current != Some(e.id) ==>
      && !IsTimer(e) && e.id in m.attempts
      && m' == if e.SocketOpen? then m.(attempts := m.attempts[e.id := m.attempts[e.id].(wasOpened := true)]) else m
  }

  /** What a caller may rely on after one event. */
  ghost predicate Promised(m: Monitor, e: Event, m': Monitor, deps: Deps, now: nat) {
    && Honest(m')
    && (m.closed || e.Close? ==> Shut(m') && m'.nextId == m.nextId)
    && Inert(m, e, m')
    && (SafeTiming(deps) && Inv(m, deps, now) ==> GoodStep(m, e, m', deps, now))
  }

  lemma StepPromised(m: Monitor, e: Event, deps: Deps, now: nat)
    requires Base(m) && Legal(m, e, deps, now)
    ensures Base(Step(m, e, deps, now)) && Promised(m, e, Step(m, e, deps, now), deps, now)
  {
    hide Inv, GoodStep, FailuresSinceSuccess, SafeTiming, Step, Legal;
    StepBase(m, e, deps, now);
    if m.closed || e.Close? { ClosedStep(m, e, deps, now); }
    StaleStep(m, e, deps, now);
    if SafeTiming(deps) && Inv(m, deps, now) { EveryStep(m, e, deps, now); }
  }

  lemma ClosedStep(m: Monitor, e: Event, deps: Deps, now: nat)
    requires Base(m) && (m.closed || e.Close?) && Legal(m, e, deps, now)
    ensures Step(m, e, deps, now).closed && Step(m, e, deps, now).nextId == m.nextId
  {
    hide FailuresSinceSuccess;
    if IsTimer(e) { TimerIsCurrent(m, e, deps, now); }
    if e.Close? { CloseBase(m); }
  }

  lemma StaleStep(m: Monitor, e: Event, deps: Deps, now: nat)
    requires Base(m) && Legal(m, e, deps, now)
    ensures Inert(m, e, Step(m, e, deps, now))
  {
    hide FailuresSinceSuccess;
    if IsTimer(e) { TimerIsCurrent(m, e, deps, now); }
  }
}
