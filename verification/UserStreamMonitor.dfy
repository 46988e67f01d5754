/**
 * The monitor as the bot holds it: attempt objects shared between the monitor and their socket
 * callbacks, sorted market arrays, and a connect loop that stops at its awaits. Every handler is
 * proved to take the step of `UserStream` and to keep the promises of `UserStreamAlways`.
 */
module UserStreamMonitor {
  import opened Basics
  import opened MarketLists
  import opened UserStream
  import opened UserStreamAlways

  /** One connection attempt, with the `settled` flag that its callbacks share. */
  class ConnectionAttempt {
    const id: nat
    const markets: seq<string>
    var settled: bool
    var wasOpened: bool
    var connectDue: Option<nat>
    var readyDue: Option<nat>
    var beatDue: Option<nat>

    ghost function View(): Attempt
      reads this
    {
      Attempt(Elems(markets), settled, wasOpened, connectDue, readyDue, beatDue)
    }

    constructor (id: nat, markets: seq<string>, connectDue: nat)
      ensures this.id == id && this.markets == markets
      ensures View() == Attempt(Elems(markets), false, false, Some(connectDue), None, None)
    {
      this.id, this.markets := id, markets;
      settled, wasOpened := false, false;
      this.connectDue, readyDue, beatDue := Some(connectDue), None, None;
    }

    method ClearStartupTimers()
      modifies this
      ensures View() == ClearStartup(old(View()))
    {
      connectDue, readyDue := None, None;
    }

    /** The heartbeat, unless it is running, and then the ready timer. */
    method StartTimers(beat: nat, ready: nat)
      modifies this
      ensures View() == old(View()).(beatDue := if old(beatDue).Some? then old(beatDue)
                                     else Some(beat), readyDue := Some(ready))
    {
      if beatDue.None? {
        beatDue := Some(beat);
      }
      readyDue := Some(ready);
    }

    /** A one-shot timer is gone once it has fired. */
    method Expire(ready: bool)
      modifies this
      ensures View() == if ready then old(View()).(readyDue := None) else old(View()).(connectDue := None)
    {
      if ready {
        readyDue := None;
      } else {
        connectDue := None;
      }
    }

    method ClearAllTimers()
      modifies this
      ensures View() == ClearTimers(old(View()))
    {
      ClearStartupTimers();
      beatDue := None;
    }
  }

  function Ids(markets: Option<seq<string>>): Option<Markets> {
    if markets.None? then None else Some(Elems(markets.value))
  }

  function IdOf(a: ConnectionAttempt?): Option<nat> {
    if a == null then None else Some(a.id)
  }

  /** What the monitor reports of itself. */
  datatype Snapshot = Snapshot(ok: bool, phase: Phase, failures: nat, subscribed: seq<string>, lastEvent: Option<nat>)

  class WsUserStreamMonitor {
    const deps: Deps
    var desired: Option<seq<string>>
    var state: Snapshot
    var currentAttempt: ConnectionAttempt?
    /** The attempt whose promise the running connect loop awaits; `null` when no loop is running. */
    var awaited: ConnectionAttempt?
    var timer: bool
    var closed: bool
    var nextAttemptId: nat
    /** Every attempt ever opened: sockets keep theirs alive after the monitor has let go. */
    ghost var all: map<nat, ConnectionAttempt>
    ghost var repr: set<ConnectionAttempt>
    /** Their states, as `Mirrored` ties them to the objects. */
    ghost var attempts: map<nat, Attempt>
    /** Successes and failures so far. */
    ghost var log: seq<Entry>

    ghost function View(): Monitor
      reads this
    {
      Monitor(Ids(desired), state.ok, state.phase, state.failures, Elems(state.subscribed), IdOf(currentAttempt),
              attempts,
              IdOf(awaited), timer, closed, nextAttemptId, state.lastEvent, log)
    }

    ghost predicate Owns(a: ConnectionAttempt)
      reads `all
    {
      a.id in all && all[a.id] == a
    }

    /** Attempts are known by their number, and the trace shows their state. */
    ghost predicate Mirrored()
      reads `all, `attempts, `repr, repr
    {
      && attempts.Keys == all.Keys
      && forall id | id in all ::
           all[id] in repr && all[id].id == id && attempts[id] == all[id].View()
    }

    ghost predicate Numbered()
      reads `all, `nextAttemptId
    {
      forall id | id in all :: id <= nextAttemptId && Sorted(all[id].markets)
    }

    /** References lead to attempts of this monitor, and every array is sorted. */
    ghost predicate Linked()
      reads this, repr
    {
      && Mirrored()
      && Numbered()
      && (currentAttempt != null ==> Owns(currentAttempt))
      && (awaited != null ==> Owns(awaited))
      && (desired.Some? ==> Sorted(desired.value)) && Sorted(state.subscribed)
    }

    ghost predicate Valid()
      reads this, repr
    {
      Linked() && Base(View())
    }

    /** What a reader of the object's state may conclude from `connected`. */
    ghost predicate Subscribed()
      reads this
    {
      state.phase == Connected ==>
        && state.ok && currentAttempt != null
        && state.subscribed == currentAttempt.markets && desired == Some(state.subscribed)
    }

    /** Attempts are only ever added, as new objects. */
    twostate predicate Grown()
      reads this
    {
      && fresh(repr - old(repr))
      && forall id | id in old(all) :: id in all && all[id] == old(all[id])
    }

    lemma ValidMeansSubscribed()
      requires Valid()
      ensures Subscribed()
    {
      hide Sorted, Elems, FailuresSinceSuccess, Superseded;
      if state.phase == Connected {
        var a: ConnectionAttempt := currentAttempt;
        assert attempts[a.id].markets == Elems(a.markets);
        SortedUnique(state.subscribed, a.markets);
        SortedUnique(state.subscribed, desired.value);
      }
    }

    constructor (deps: Deps)
      ensures Valid() && View() == FRESH && this.deps == deps && repr == {}
    {
      this.deps := deps;
      desired, state := None, Snapshot(false, Idle, 0, [], None);
      currentAttempt, awaited := null, null;
      all, repr, attempts, log := map[], {}, map[], [];
      timer, closed, nextAttemptId := false, false, 0;
    }

    // ----- Private methods -----

    method Settle(a: ConnectionAttempt)
      requires Mirrored() && Owns(a)
      modifies a`settled, `attempts
      ensures Mirrored() && attempts == old(attempts)[a.id := old(attempts)[a.id].(settled := true)]
    {
      a.settled := true;
      attempts := attempts[a.id := a.View()];
    }

    method ClearAll(a: ConnectionAttempt)
      requires Mirrored() && Owns(a)
      modifies a, `attempts
      ensures Mirrored() && attempts == old(attempts)[a.id := ClearTimers(old(attempts)[a.id])]
      ensures a.settled == old(a.settled)
    {
      a.ClearAllTimers();
      attempts := attempts[a.id := a.View()];
    }

    method ClearStart(a: ConnectionAttempt)
      requires Mirrored() && Owns(a)
      modifies a, `attempts
      ensures Mirrored() && attempts == old(attempts)[a.id := ClearStartup(old(attempts)[a.id])]
    {
      a.ClearStartupTimers();
      attempts := attempts[a.id := a.View()];
    }

    ghost predicate Known()
      reads this
    {
      currentAttempt != null ==> currentAttempt.id in attempts
    }

    lemma CurrentKnown()
      requires Linked()
      ensures Known() && Sorted(state.subscribed) && (desired.Some? ==> Sorted(desired.value))
    {
    }

    lemma IsMirrored(a: ConnectionAttempt)
      requires Mirrored() && Owns(a)
      ensures a.id in attempts && attempts[a.id] == a.View() && a in repr
    {
    }

    /** The common part of `failAttempt` and `markDisconnected`. */
    method DropAttempt(a: ConnectionAttempt, entry: Entry)
      requires Linked() && Owns(a)
      modifies this, a
      ensures Linked() && SameAttempts() && View() == Drop(old(View()), a.id, entry)
    {
      hide Sorted, Elems, ClearTimers, ConnectionAttempt.View, Mirrored, Numbered;
      ghost var m := View();
      IsMirrored(a);
      ClearAll(a);
      assert View() == m.(attempts := m.attempts[a.id := ClearTimers(m.attempts[a.id])]);
      RecordLoss(entry);
    }

    method RecordLoss(entry: Entry)
      requires Linked()
      modifies `log, `state, `currentAttempt, `timer
      ensures Linked() && timer == (old(timer) || (!closed && desired.Some?))
      ensures View() == old(View()).(ok := false, phase := if closed then Closed else Reconnecting,
                                     failures := old(state.failures) + 1, log := old(log) + [entry], current := None,
                                       timer := timer)
    {
      hide Sorted, Elems, Ids, Mirrored, Numbered;
      log := log + [entry];
      state := state.(ok := false, phase := if closed then Closed else Reconnecting, failures := state.failures + 1);
      currentAttempt := null;
      ScheduleReconnectTimer();
    }

    method ScheduleReconnectTimer()
      modifies `timer
      ensures timer == (old(timer) || (!closed && desired.Some?))
    {
      if closed || desired.None? || timer {
        return;
      }
      timer := true;
    }

    twostate predicate SameAttempts()
      reads this
    {
      all == old(all) && repr == old(repr)
    }

    method CompleteFailure(a: ConnectionAttempt)
      requires Linked() && Owns(a)
      modifies this, a
      ensures Linked() && SameAttempts() && View() == UserStream.CompleteFailure(old(View()), a.id)
    {
      hide Sorted, Elems, Ids, Drop, Mirrored, Numbered;
      IsMirrored(a);
      if a.settled {
        return;
      }
      Settle(a);
      if currentAttempt == a {
        DropAttempt(a, ConnectFailed);
      }
      if awaited == a {
        awaited := null;
      }
    }

    method DisposeAttempt()
      requires Linked()
      modifies this, repr
      ensures Linked() && SameAttempts() && View() == DisposeCurrent(old(View()))
      ensures currentAttempt == null && nextAttemptId == old(nextAttemptId)
    {
      hide Sorted, Elems, Ids, UserStream.CompleteFailure, ClearTimers, Mirrored, Numbered;
      if currentAttempt != null {
        var a := currentAttempt;
        IsMirrored(a);
        ClearAll(a);
        currentAttempt := null;
        CompleteFailure(a);
        NeverCurrent(old(View()), a.id);
      }
    }

    lemma NeverCurrent(m: Monitor, id: nat)
      requires id in m.attempts && m.current == Some(id)
      ensures var m' := UserStream.CompleteFailure(
                m.(attempts := m.attempts[id := ClearTimers(m.attempts[id])], current := None), id);
              m'.current.None? && m'.nextId == m.nextId
    {
    }

    /** Everything before the await; a throwing socket constructor ends the loop. */
    method OpenNew(markets: seq<string>, now: nat, created: bool)
      requires Linked() && Sorted(markets)
      modifies this, repr
      ensures Linked() && Grown() && View() == OpenConnection(old(View()), Elems(markets), deps, now, created)
    {
      hide Sorted, Elems, Ids, DisposeCurrent, StartAttempt, Mirrored, Numbered;
      timer := false;
      DisposeAttempt();
      state := state.(phase := if state.phase == Reconnecting || state.failures > 0 then Reconnecting else Connecting);
      if !created {
        awaited := null;
        return;
      }
      StartNew(markets, now);
    }

    method StartNew(markets: seq<string>, now: nat)
      requires Linked() && Sorted(markets)
      modifies this
      ensures Linked() && Grown() && View() == StartAttempt(old(View()), Elems(markets), deps, now)
    {
      hide Sorted, Elems, Ids, Mirrored, Numbered, ConnectionAttempt.View;
      var a := new ConnectionAttempt(nextAttemptId + 1, markets, now + deps.connectTimeout);
      NumberedIs();
      Register(a);
      nextAttemptId := nextAttemptId + 1;
      currentAttempt, awaited := a, a;
      Renumbered(a);
    }

    lemma Renumbered(a: ConnectionAttempt)
      requires Sorted(a.markets) && a.id == nextAttemptId
      requires forall id | id in all :: (id == a.id && all[id] == a) || (id <= nextAttemptId && Sorted(all[id].markets))
      ensures Numbered()
    {
    }

    lemma NumberedIs()
      requires Numbered()
      ensures forall id | id in all :: id <= nextAttemptId && Sorted(all[id].markets)
    {
    }

    ghost method Register(a: ConnectionAttempt)
      requires Mirrored() && a.id !in all
      modifies `all, `repr, `attempts
      ensures Mirrored() && Owns(a)
      ensures all == old(all)[a.id := a] && repr == old(repr) + {a} && attempts == old(attempts)[a.id := a.View()]
    {
      hide ConnectionAttempt.View;
      all, repr, attempts := all[a.id := a], repr + {a}, attempts[a.id := a.View()];
    }

    /**
     * The connect loop from where it is called or resumed to its next await or its end. `resumed`
     * says that the attempt it awaited has succeeded, so that the rest of that turn comes first.
     */
    method ConnectLoop(resumed: bool, now: nat, created: bool)
      requires Linked()
      modifies this, repr
      ensures Linked() && Grown()
      ensures View() == if resumed then ResumeLoop(old(View()), deps, now, created)
              else LoopTurn(old(View()), deps, now, created)
    {
      hide Sorted, Elems, OpenConnection, DisposeCurrent, Linked;
      CurrentKnown();
      var tail := resumed;
      ghost var goal := if resumed then ResumeLoop(View(), deps, now, created)
                        else LoopTurn(View(), deps, now, created);
      while tail || !closed
        invariant Linked() && SameAttempts() && Known() && Sorted(state.subscribed)
                  && (desired.Some? ==> Sorted(desired.value))
        invariant goal == if tail then ResumeLoop(View(), deps, now, created) else LoopTurn(View(), deps, now, created)
        decreases tail
      {
        if desired.None? {
          break;
        }
        var same := ArraysEqual(state.subscribed, desired.value);
        if same && (tail || state.ok) {
          break;
        }
        if !tail {
          OpenNew(desired.value, now, created);
          return;
        }
        DisposeAttempt();
        CurrentKnown();
        tail := false;
      }
      StopWaiting();
    }

    method StopWaiting()
      requires Linked()
      modifies `awaited
      ensures Linked() && View() == old(View()).(awaiting := None)
    {
      hide Sorted, Elems, Ids, Mirrored, Numbered;
      awaited := null;
    }

    method CompleteSuccess(a: ConnectionAttempt, now: nat, created: bool)
      requires Linked() && Owns(a)
      modifies this, repr
      ensures Linked() && Grown() && View() == UserStream.CompleteSuccess(old(View()), a.id, deps, now, created)
    {
      hide Sorted, Elems, Ids, ResumeLoop, MarkConnected, Mirrored, Numbered;
      IsMirrored(a);
      if a.settled {
        return;
      }
      Settle(a);
      if currentAttempt == a {
        Connect(a, now);
      }
      if awaited == a {
        ConnectLoop(true, now, created);
      }
    }

    method Connect(a: ConnectionAttempt, now: nat)
      requires Linked() && Owns(a)
      modifies this, a
      ensures Linked() && SameAttempts() && awaited == old(awaited) && View() == MarkConnected(old(View()), a.id, now)
    {
      NumberedIs();
      hide Sorted, Elems, Ids, ClearStartup, Mirrored, Numbered;
      IsMirrored(a);
      ghost var m := View();
      ClearStart(a);
      assert View() == m.(attempts := m.attempts[a.id := ClearStartup(m.attempts[a.id])]);
      RecordConnected(a.markets, now);
    }

    method RecordConnected(markets: seq<string>, now: nat)
      requires Linked() && Sorted(markets)
      modifies `log, `state
      ensures Linked()
      ensures View() == old(View()).(ok := true, phase := Connected, lastEvent := Some(now),
                                     subscribed := Elems(markets),
                                     failures := 0, log := old(log) + [ConnectOk])
    {
      hide Sorted, Elems, Ids, Mirrored, Numbered;
      log := log + [ConnectOk];
      state := Snapshot(true, Connected, 0, markets, Some(now));
    }

    // ----- Event handlers -----

    /** Everything a handler owes once it has taken its step. */
    ghost predicate Kept(m: Monitor, e: Event, now: nat)
      reads this, repr
    {
      Valid() && Subscribed() && Promised(m, e, View(), deps, now)
    }

    lemma StepKept(m: Monitor, e: Event, now: nat)
      requires Linked() && Base(m) && Legal(m, e, deps, now) && View() == Step(m, e, deps, now)
      ensures Kept(m, e, now)
    {
      hide Base, Promised, Linked, Step, Legal, Subscribed;
      StepPromised(m, e, deps, now);
      ValidMeansSubscribed();
    }

    /** Ask for a subscription; refused, as the error the caller gets, without markets or after close. */
    method EnsureConnected(markets: seq<string>, now: nat, created: bool) returns (accepted: bool)
      requires Valid()
      modifies this, repr
      ensures accepted <==> markets != [] && !old(closed)
      ensures Grown() && View() == Step(old(View()), Event.EnsureConnected(Elems(markets), created), deps, now)
      ensures Kept(old(View()), Event.EnsureConnected(Elems(markets), created), now)
      ensures accepted ==> View().desired == Some(Elems(markets))
    {
      hide Elems, LoopTurn, Mirrored, Numbered, Kept, Base;
      ghost var m, e := View(), Event.EnsureConnected(Elems(markets), created);
      var wanted := Normalized(markets);
      NormalizedSorts(markets);
      ElemsCons("", markets);
      ElemsCons("", wanted);
      accepted := wanted != [] && !closed;
      if accepted {
        desired := Some(wanted);
        var same := ArraysEqual(state.subscribed, wanted);
        if !(state.ok && same) && awaited == null {
          hide Sorted;
          ConnectLoop(false, now, created);
        }
      }
      KeepsWish(m, e, now);
      hide Linked, Step, Legal;
      StepKept(m, e, now);
    }

    lemma KeepsWish(m: Monitor, e: Event, now: nat)
      requires Base(m) && e.EnsureConnected?
      ensures e.markets != {} && !m.closed ==> Step(m, e, deps, now).desired == Some(e.markets)
    {
      hide FailuresSinceSuccess;
    }

    method CloseMonitor(now: nat)
      requires Valid()
      modifies this, repr
      ensures Grown() && View() == Step(old(View()), Close, deps, now)
      ensures Kept(old(View()), Close, now)
      ensures closed && !state.ok && !timer && currentAttempt == null && desired == None
              && nextAttemptId == old(nextAttemptId)
    {
      hide Sorted, Elems, DisposeCurrent, Mirrored, Numbered, Kept, Base;
      ghost var m := View();
      closed, desired, timer := true, None, false;
      assert View() == m.(closed := true, desired := None, timer := false);
      DisposeAttempt();
      state := state.(ok := false, phase := Closed);
      CloseNotTimed(m);
      hide Linked, Step, Legal;
      StepKept(m, Close, now);
    }

    lemma CloseNotTimed(m: Monitor)
      requires Base(m)
      ensures OnClose(m).desired.None? && !OnClose(m).timer && OnClose(m).closed
    {
    }

    method SocketOpened(a: ConnectionAttempt, now: nat, sent: bool)
      requires Valid() && Owns(a) && Legal(View(), SocketOpen(a.id, sent), deps, now)
      modifies this, repr
      ensures Grown() && View() == Step(old(View()), SocketOpen(a.id, sent), deps, now)
      ensures Kept(old(View()), SocketOpen(a.id, sent), now)
    {
      hide Sorted, Elems, Ids, UserStream.CompleteFailure, Mirrored, Numbered, Kept, Base;
      ghost var m := View();
      IsMirrored(a);
      MarkOpened(a);
      assert View() == m.(attempts := m.attempts[a.id := m.attempts[a.id].(wasOpened := true)]);
      if currentAttempt == a {
        if sent {
          StartTimers(a, now);
        } else {
          CompleteFailure(a);
        }
      }
      hide Linked, Step, Legal;
      StepKept(m, SocketOpen(a.id, sent), now);
    }

    method MarkOpened(a: ConnectionAttempt)
      requires Mirrored() && Owns(a)
      modifies a`wasOpened, `attempts
      ensures Mirrored() && attempts == old(attempts)[a.id := old(attempts)[a.id].(wasOpened := true)]
    {
      a.wasOpened := true;
      attempts := attempts[a.id := a.View()];
    }

    method StartTimers(a: ConnectionAttempt, now: nat)
      requires Mirrored() && Owns(a)
      modifies a, `attempts
      ensures Mirrored() && a.id in old(attempts)
      ensures var b := old(attempts)[a.id];
              attempts == old(attempts)[a.id := b.(beatDue := if b.beatDue.Some? then b.beatDue
                                                   else Some(now + deps.ping),
                                                   readyDue := Some(now + deps.grace))]
    {
      a.StartTimers(now + deps.ping, now + deps.grace);
      attempts := attempts[a.id := a.View()];
    }

    method SocketMessage(a: ConnectionAttempt, now: nat, error: bool, created: bool)
      requires Valid() && Owns(a) && Legal(View(), Message(a.id, error, created), deps, now)
      modifies this, repr
      ensures Grown() && View() == Step(old(View()), Message(a.id, error, created), deps, now)
      ensures Kept(old(View()), Message(a.id, error, created), now)
    {
      hide Sorted, Elems, Ids, UserStream.CompleteFailure, UserStream.CompleteSuccess, Mirrored, Numbered, Kept, Base;
      ghost var m := View();
      IsMirrored(a);
      if currentAttempt == a {
        state := state.(lastEvent := Some(now));
        if error && !a.settled {
          CompleteFailure(a);
        } else {
          CompleteSuccess(a, now, created);
        }
      }
      hide Linked, Step, Legal;
      StepKept(m, Message(a.id, error, created), now);
    }

    /** The socket reports an error (`byError`) or its end. */
    method SocketEnded(a: ConnectionAttempt, now: nat, byError: bool)
      requires Valid() && Owns(a) && Legal(View(), EndOf(a.id, byError), deps, now)
      modifies this, repr
      ensures Grown() && View() == Step(old(View()), EndOf(a.id, byError), deps, now)
      ensures Kept(old(View()), EndOf(a.id, byError), now)
    {
      hide Sorted, Elems, Ids, UserStream.CompleteFailure, Drop, Mirrored, Numbered, Kept, Base;
      ghost var m := View();
      IsMirrored(a);
      if currentAttempt == a {
        if a.settled {
          DropAttempt(a, Disconnected);
        } else {
          CompleteFailure(a);
        }
      }
      hide Linked, Step, Legal;
      StepKept(m, EndOf(a.id, byError), now);
    }

    method HeartbeatFires(a: ConnectionAttempt, now: nat, socketOpen: bool, sent: bool)
      requires Valid() && Owns(a) && Legal(View(), Heartbeat(a.id, socketOpen, sent), deps, now)
      modifies this, repr
      ensures Grown() && View() == Step(old(View()), Heartbeat(a.id, socketOpen, sent), deps, now)
      ensures Kept(old(View()), Heartbeat(a.id, socketOpen, sent), now)
    {
      hide Sorted, Elems, Ids, Drop, Mirrored, Numbered, Kept, Base, ConnectionAttempt.View, Stale;
      ghost var m := View();
      IsMirrored(a);
      var stale := IsStale(now);
      Rearm(a, now);
      assert View() == m.(attempts := m.attempts[a.id := m.attempts[a.id].(beatDue := Some(now + deps.ping))]);
      if currentAttempt == a && socketOpen && (stale || !sent) {
        DropAttempt(a, Disconnected);
      }
      hide Linked, Step, Legal;
      StepKept(m, Heartbeat(a.id, socketOpen, sent), now);
    }

    function IsStale(now: nat): (r: bool)
      reads this
      ensures r == Stale(View(), deps, now)
    {
      var window := if deps.staleness > 2 * deps.ping then deps.staleness else 2 * deps.ping;
      deps.staleness > 0 && state.lastEvent.Some? && now > state.lastEvent.value + window
    }

    /** The interval timer sets its next deadline. */
    method Rearm(a: ConnectionAttempt, now: nat)
      requires Mirrored() && Owns(a)
      modifies a`beatDue, `attempts
      ensures Mirrored() && attempts == old(attempts)[a.id := old(attempts)[a.id].(beatDue := Some(now + deps.ping))]
    {
      a.beatDue := Some(now + deps.ping);
      attempts := attempts[a.id := a.View()];
    }

    method ReconnectTimerFires(now: nat, created: bool)
      requires Valid() && timer
      modifies this, repr
      ensures Grown() && View() == Step(old(View()), ReconnectFires(created), deps, now)
      ensures Kept(old(View()), ReconnectFires(created), now)
    {
      hide Sorted, Elems, LoopTurn, Mirrored, Numbered, Kept, Base;
      ghost var m := View();
      timer := false;
      if !closed && desired.Some? && awaited == null {
        ConnectLoop(false, now, created);
      }
      hide Linked, Step, Legal;
      StepKept(m, ReconnectFires(created), now);
    }

    method ConnectTimerFires(a: ConnectionAttempt, now: nat)
      requires Valid() && Owns(a) && Legal(View(), ConnectTimeout(a.id), deps, now)
      modifies this, repr
      ensures Grown() && View() == Step(old(View()), ConnectTimeout(a.id), deps, now)
      ensures Kept(old(View()), ConnectTimeout(a.id), now)
    {
      hide Sorted, Elems, Ids, UserStream.CompleteFailure, Mirrored, Numbered, Kept, Base;
      ghost var m := View();
      IsMirrored(a);
      Expire(a, false);
      CompleteFailure(a);
      hide Linked, Step, Legal;
      StepKept(m, ConnectTimeout(a.id), now);
    }

    method ReadyTimerFires(a: ConnectionAttempt, now: nat, created: bool)
      requires Valid() && Owns(a) && Legal(View(), Ready(a.id, created), deps, now)
      modifies this, repr
      ensures Grown() && View() == Step(old(View()), Ready(a.id, created), deps, now)
      ensures Kept(old(View()), Ready(a.id, created), now)
    {
      hide Sorted, Elems, Ids, UserStream.CompleteSuccess, Mirrored, Numbered, Kept, Base;
      ghost var m := View();
      IsMirrored(a);
      Expire(a, true);
      CompleteSuccess(a, now, created);
      hide Linked, Step, Legal;
      StepKept(m, Ready(a.id, created), now);
    }

    method Expire(a: ConnectionAttempt, ready: bool)
      requires Mirrored() && Owns(a)
      modifies a, `attempts
      ensures Mirrored() && a.id in old(attempts)
      ensures var b := old(attempts)[a.id];
              attempts == old(attempts)[a.id := if ready then b.(readyDue := None) else b.(connectDue := None)]
    {
      a.Expire(ready);
      attempts := attempts[a.id := a.View()];
    }
  }

  function EndOf(id: nat, byError: bool): Event {
    if byError then SocketError(id) else SocketClosed(id)
  }
}
