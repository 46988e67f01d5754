/** Group numbers identify a spread only within one process: a run in which a restart gives number 1 out again. */
module GroupReuse {
  import opened Basics
  import opened Reserves
  import opened Executor
  import opened Lifecycle
  import opened TradingRun
  import opened Theorems
  import opened Insolvency
  import opened RestartBound
  import Bankroll
  import Fees

  /** A process that restarts on a database without trades begins as the first one did. */
  lemma RestartsClean(w: World, balance: real, setup: Setup)
    requires w.clock == 0 && w.feesPaid == 0.0 && w.desk.trades == [] && w.desk.log == [balance]
    requires setup.starting == balance && w.desk.engine.session == 0
    ensures Legal(w, Restart(0), setup)
    ensures var w' := Next(w, Restart(0), setup);
            Clean(w', balance, 1) && w'.quotes == w.quotes
  {
  }

  /** Two spreads of one database, both accepted, both numbered 1: one in each of two sessions. */
  lemma RestartReusesNumbers() returns (setup: Setup, es: seq<Event>)
    ensures FreshRun(es, setup) && StorageWorks(es) && NoCorrections(es)
    ensures var w := Reached(es, setup);
            && (0, 1) in w.quotes && (1, 1) in w.quotes && w.quotes[(0, 1)] != w.quotes[(1, 1)]
            && w.desk.engine.session == 1 && w.desk.engine.queue != [] && w.desk.engine.queue[0].group == Some(1)
  {
    hide Next, Legal, LegalRun, After, Discounting, AddActive;
    var balance := 2.0;
    setup := Markets(1.0, balance);
    var w0 := Init(setup);
    CleanBuy(w0, "first", 0, 1.0, balance, 4);
    var w1 := Next(w0, Spread("first"), setup);
    KeepsLog(w0, Spread("first"), setup);
    RestartsClean(w1, balance, setup);
    var w2 := Next(w1, Restart(0), setup);
    CleanBuy(w2, "second", 1, 1.0, balance, 4);
    var w3 := Next(w2, Spread("second"), setup);
    EmptyRun(w3, setup);
    RunFrom(w2, Spread("second"), [], setup);
    RunFrom(w1, Restart(0), [Spread("second")] + [], setup);
    RunFrom(w0, Spread("first"), [Restart(0)] + ([Spread("second")] + []), setup);
    es := [Spread("first")] + ([Restart(0)] + ([Spread("second")] + []));
    Configured(1.0, balance);
    PaperSetup(balance);
  }

  lemma KeepsLog(w: World, e: Event, setup: Setup)
    requires Legal(w, e, setup) && e.SubmitSpread?
    ensures Next(w, e, setup).desk.log == w.desk.log
  {
    hide Bankroll.ReserveSpread, SpreadQueueRejection, FirstIndex, SpreadArrival, Fees.SpreadNetEdge, WindowFees,
      SpreadSizeRejection, Cost;
  }

  lemma PaperSetup(balance: real)
    ensures SetupOk(Markets(1.0, balance))
  {
  }
}
