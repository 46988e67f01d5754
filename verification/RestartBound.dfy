/** Bot and agent after a restart: exactly when the bot's peak drawdown stays at or below the agent's. */
module RestartBound {
  import opened Basics
  import opened Executor
  import opened Lifecycle
  import opened TradingRun
  import opened RunInvariants
  import opened Theorems
  import Bankroll
  import Batches
  import Drawdown
  import Ledger
  import Legging
  import Positions
  import Reserves
  import Sizing

  ghost predicate Bounded(w: World) {
    w.desk.bank.equity.peak <= Drawdown.MaxDrawdown(w.desk.log)
  }

  /** The bound holds at every point until the next restart, whatever happens. */
  ghost predicate BoundedOnward(w: World, setup: Setup) {
    forall more: seq<Event> | LegalRun(w, more, setup) && NoRestarts(more) :: Bounded(After(w, more, setup))
  }

  ghost predicate MarkShared(w: World) {
    Drawdown.SameMark(w.desk.bank.equity, w.desk.log)
  }

  // ----- A shared mark is kept -----

  /** Between restarts the equity only moves by logged amounts. */
  lemma NextKeepsMark(w: World, e: Event, setup: Setup)
    requires SetupOk(setup) && Inv(w, setup) && Legal(w, e, setup) && !e.Restart? && MarkShared(w)
    ensures MarkShared(Next(w, e, setup))
  {
    hide Inv, SetupOk, Legal, Next;
    match e
    case SubmitSingle(_, _, _, _, _) => SubmissionKeepsMark(w, e, setup);
    case SubmitSpread(_, _, _, _, _) => SubmissionKeepsMark(w, e, setup);
    case ProcessDue(_, _, _, _) => DueKeepsMark(w, e, setup);
    case CloseMarket(_) => DueKeepsMark(w, e, setup);
    case Settle(_, _) => SettleKeepsMark(w, e, setup);
    case Correct(_, _) => CorrectKeepsMark(w, e, setup);
  }

  lemma SubmissionKeepsMark(w: World, e: Event, setup: Setup)
    requires SetupOk(setup) && Inv(w, setup) && Legal(w, e, setup) && (e.SubmitSingle? || e.SubmitSpread?)
             && MarkShared(w)
    ensures MarkShared(Next(w, e, setup))
  {
    hide Next, Legal, BooksInv, SlotInv, QuoteInv, LegInv, MoneyInv, EquityInv, Reserves.AddActive, Sizing.WithinCaps,
      Positions.Held, RelevantOpen, Ledger.OrderOk, Legging.Legs, Batches.QuoteOk, Batches.Listed, Drawdown.SameMark;
    if e.SubmitSingle? {
      var o := SingleOutcome(w, e, setup);
    } else {
      var u, n := SpreadOutcome(w, e, setup);
    }
  }

  lemma DueKeepsMark(w: World, e: Event, setup: Setup)
    requires Legal(w, e, setup) && (e.ProcessDue? || e.CloseMarket?) && MarkShared(w)
    ensures MarkShared(Next(w, e, setup))
  {
    hide RunBatch, Drawdown.SameMark, CloseUpTo;
  }

  lemma SettleKeepsMark(w: World, e: Event, setup: Setup)
    requires Legal(w, e, setup) && e.Settle? && MarkShared(w)
    ensures MarkShared(Next(w, e, setup))
  {
    hide Drawdown.SameMark, Drawdown.Ratio, SettlementFee, SettlementPrice, Bankroll.Record, Reserves.Release, Cost;
    var pnl := SettlementPnl(w.desk.trades[e.index], e.winner, setup.config);
    Drawdown.MoveKeepsMark(w.desk.bank.equity, w.desk.log, pnl);
  }

  lemma CorrectKeepsMark(w: World, e: Event, setup: Setup)
    requires Legal(w, e, setup) && e.Correct? && MarkShared(w)
    ensures MarkShared(Next(w, e, setup))
  {
    hide Drawdown.SameMark, Drawdown.Ratio;
    Drawdown.MoveKeepsMark(w.desk.bank.equity, w.desk.log, e.newPnl - e.oldPnl);
  }

  lemma {:induction false} RunKeepsMark(w: World, more: seq<Event>, setup: Setup)
    requires SetupOk(setup) && Inv(w, setup) && LegalRun(w, more, setup) && NoRestarts(more) && MarkShared(w)
    ensures Bounded(After(w, more, setup))
    decreases |more|
  {
    hide Inv, SetupOk, Legal, Next;
    if more == [] {
      assert Bounded(w);
    } else {
      NextKeepsMark(w, more[0], setup);
      NextKeeps(w, more[0], setup);
      RunKeepsMark(Next(w, more[0], setup), more[1..], setup);
    }
  }

  // ----- A lower mark is broken -----

  /** What one correction does to the equity and the log. */
  lemma CorrectMoves(w: World, delta: real, setup: Setup)
    ensures Legal(w, Correct(0.0, delta), setup)
    ensures var w' := Next(w, Correct(0.0, delta), setup);
            && w'.desk.bank.equity == Drawdown.Move(w.desk.bank.equity, delta)
            && w'.desk.log == w.desk.log + [w.desk.bank.equity.balance + delta]
            && w'.desk.bank.starting == w.desk.bank.starting && w'.clock == w.clock
  {
    hide Drawdown.Ratio;
  }

  lemma LowMarkRun(w: World, setup: Setup) returns (more: seq<Event>)
    requires var e, log := w.desk.bank.equity, w.desk.log;
             && log != [] && log[|log| - 1] == e.balance <= e.highWater
             && Max(e.highWater, 0.0) < Drawdown.RunningHigh(log)
    ensures LegalRun(w, more, setup) && NoRestarts(more) && !Bounded(After(w, more, setup))
  {
    hide Drawdown.MaxDrawdown, Drawdown.RunningHigh, Drawdown.Move, Next, Legal, LegalRun, After;
    if w.desk.bank.equity.highWater > 0.0 {
      more := OneMoreRun(w, setup);
    } else {
      var half := Drawdown.RunningHigh(w.desk.log) / 2.0;
      var e := Correct(0.0, half - w.desk.bank.equity.balance);
      Drawdown.HalfWay(w.desk.bank.equity, w.desk.log);
      CorrectMoves(w, half - w.desk.bank.equity.balance, setup);
      var rest := OneMoreRun(Next(w, e, setup), setup);
      more := [e] + rest;
      RunFrom(w, e, rest, setup);
    }
  }

  lemma OneMoreRun(w: World, setup: Setup) returns (more: seq<Event>)
    requires var e, log := w.desk.bank.equity, w.desk.log;
             log != [] && e.balance <= e.highWater && 0.0 < e.highWater < Drawdown.RunningHigh(log)
    ensures LegalRun(w, more, setup) && NoRestarts(more) && !Bounded(After(w, more, setup))
  {
    hide Drawdown.MaxDrawdown, Drawdown.RunningHigh, Drawdown.Move, Next, Legal, LegalRun, After;
    var delta := Drawdown.LowMarkBreaks(w.desk.bank.equity, w.desk.log);
    CorrectMoves(w, delta, setup);
    var e := Correct(0.0, delta);
    EmptyRun(Next(w, e, setup), setup);
    RunFrom(w, e, [], setup);
    more := [e] + [];
  }

  lemma EmptyRun(w: World, setup: Setup)
    ensures LegalRun(w, [], setup) && After(w, [], setup) == w
  {
  }

  lemma RunFrom(w: World, e: Event, rest: seq<Event>, setup: Setup)
    requires Legal(w, e, setup) && LegalRun(Next(w, e, setup), rest, setup)
    ensures LegalRun(w, [e] + rest, setup) && After(w, [e] + rest, setup) == After(Next(w, e, setup), rest, setup)
  {
    hide Legal, Next;
    assert ([e] + rest)[1..] == rest;
  }

  // ----- The exact condition -----

  lemma RestartMarks(w: World, now: nat, setup: Setup)
    requires EquityInv(w, setup.starting) && now >= w.clock
    ensures Legal(w, Restart(now), setup)
    ensures var w' := Next(w, Restart(now), setup);
            && w'.desk.bank.equity == Drawdown.Open(setup.starting, w.desk.bank.equity.balance)
            && w'.desk.log == w.desk.log != [] && w.desk.log[|w.desk.log| - 1] == w.desk.bank.equity.balance
            && Drawdown.Below(w'.desk.bank.equity, w'.desk.log)
  {
    hide Drawdown.Agree, Drawdown.Below, Bankroll.HydrateAll;
    Drawdown.ReopenBelow(setup.starting, w.desk.log);
  }

  /**
   * After a restart the bot reads at most the agent's drawdown in every continuation up to the next
   * restart, if and only if the balance log has never been above what the bot reopens with: the
   * starting balance, the current balance, or zero. Both sides are known before restarting.
   */
  lemma RestartBoundExactly(es: seq<Event>, setup: Setup, now: nat)
    requires FreshRun(es, setup) && now >= Reached(es, setup).clock
    ensures var w := Reached(es, setup);
            && Legal(w, Restart(now), setup)
            && (BoundedOnward(Next(w, Restart(now), setup), setup) <==>
                  Drawdown.RunningHigh(w.desk.log) == Max(Max(setup.starting, w.desk.bank.equity.balance), 0.0))
  {
    hide LegalRun, After, BooksInv, SlotInv, QuoteInv, LegInv, MoneyInv, EquityInv, Next, Legal, Drawdown.MaxDrawdown,
      Drawdown.RunningHigh, Bounded;
    ReachedInv(es, setup);
    var w := Reached(es, setup);
    RestartMarks(w, now, setup);
    var w' := Next(w, Restart(now), setup);
    NextKeeps(w, Restart(now), setup);
    if Drawdown.RunningHigh(w.desk.log) == Max(Max(setup.starting, w.desk.bank.equity.balance), 0.0) {
      forall more: seq<Event> | LegalRun(w', more, setup) && NoRestarts(more)
        ensures Bounded(After(w', more, setup))
      {
        RunKeepsMark(w', more, setup);
      }
    } else {
      var more := LowMarkRun(w', setup);
    }
  }

  /** Under every setup some run of four or five events breaks the bound: rise, fall back, restart, fall below zero. */
  lemma RestartBoundFails(setup: Setup) returns (es: seq<Event>, more: seq<Event>)
    requires SetupOk(setup)
    ensures FreshRun(es, setup) && Legal(Reached(es, setup), Restart(0), setup)
    ensures var w := Next(Reached(es, setup), Restart(0), setup);
            LegalRun(w, more, setup) && NoRestarts(more) && !Bounded(After(w, more, setup))
  {
    hide Drawdown.MaxDrawdown, Drawdown.RunningHigh, Drawdown.Move, Next, Legal, LegalRun, After;
    var rise := Abs(setup.starting) + 2.0 - setup.starting;
    var e1, e2 := Correct(0.0, rise), Correct(0.0, -rise);
    var w0 := Init(setup);
    CorrectMoves(w0, rise, setup);
    var w1 := Next(w0, e1, setup);
    CorrectMoves(w1, -rise, setup);
    var w2 := Next(w1, e2, setup);
    EmptyRun(w2, setup);
    RunFrom(w1, e2, [], setup);
    RunFrom(w0, e1, [e2] + [], setup);
    es := [e1] + ([e2] + []);
    RiseAndFall(setup, w1, w2, rise);
    RestartBoundExactly(es, setup, 0);
    var w := Next(Reached(es, setup), Restart(0), setup);
    more :| LegalRun(w, more, setup) && NoRestarts(more) && !Bounded(After(w, more, setup));
  }

  lemma RiseAndFall(setup: Setup, w1: World, w2: World, rise: real)
    requires var s := setup.starting;
             && rise == Abs(s) + 2.0 - s
             && w1.desk.log == [s] + [s + rise] && w2.desk.log == w1.desk.log + [w1.desk.bank.equity.balance - rise]
             && w1.desk.bank.equity == Drawdown.Move(Drawdown.Open(s, s), rise)
             && w2.desk.bank.equity == Drawdown.Move(w1.desk.bank.equity, -rise)
    ensures w2.desk.bank.equity.balance == setup.starting
    ensures Drawdown.RunningHigh(w2.desk.log) > Max(Max(setup.starting, setup.starting), 0.0)
  {
    hide Drawdown.Ratio, Drawdown.RunningHigh;
    assert w2.desk.log[1] == Abs(setup.starting) + 2.0;
    assert w2.desk.log[1] <= Drawdown.RunningHigh(w2.desk.log);
  }
}
