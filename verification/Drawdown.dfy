/** Balance, high-water mark and peak drawdown: the bot's incremental values and the agent's recomputation. */
module Drawdown {
  import opened Basics

  datatype Equity = Equity(balance: real, highWater: real, peak: real)

  function Ratio(highWater: real, balance: real): real {
    if highWater <= 0.0 then 0.0 else (highWater - balance) / highWater
  }

  function Current(e: Equity): real {
    Ratio(e.highWater, e.balance)
  }

  function Open(starting: real, current: real): Equity {
    Equity(current, Max(starting, current), 0.0)
  }

  /** One closed trade or one settlement correction moves the balance by `delta`. */
  function Move(e: Equity, delta: real): Equity {
    var balance := e.balance + delta;
    var highWater := if balance > e.highWater then balance else e.highWater;
    var ratio := Ratio(highWater, balance);
    Equity(balance, highWater, if ratio > e.peak then ratio else e.peak)
  }

  // ----- The agent's recomputation over the balance log -----

  /** Running maximum of a log prefix, never below zero. */
  function RunningHigh(log: seq<real>): (h: real)
    ensures h >= 0.0
    ensures forall i | 0 <= i < |log| :: log[i] <= h
    ensures h == 0.0 || h in log
  {
    if log == [] then 0.0 else Max(RunningHigh(log[..|log| - 1]), log[|log| - 1])
  }

  /** Drawdown the log shows at entry `i`, measured from the highest balance up to and including it. */
  function LogDrawdown(log: seq<real>, i: nat): real
    requires i < |log|
  {
    Ratio(RunningHigh(log[..i + 1]), log[i])
  }

  function MaxDrawdown(log: seq<real>): real {
    if log == [] then 0.0
    else
      var init := log[..|log| - 1];
      var high := RunningHigh(log);
      if high > 0.0 then Max(MaxDrawdown(init), Ratio(high, log[|log| - 1])) else MaxDrawdown(init)
  }

  /** The recomputed value is an upper bound of every drawdown in the log, and one of them (or zero). */
  ghost predicate IsPeakDrawdown(log: seq<real>, peak: real) {
    && (forall i | 0 <= i < |log| :: LogDrawdown(log, i) <= peak)
    && (peak == 0.0 || exists i | 0 <= i < |log| :: LogDrawdown(log, i) == peak)
  }

  lemma PrefixOfPrefix(log: seq<real>, n: nat, i: nat)
    requires i < n <= |log|
    ensures LogDrawdown(log[..n], i) == LogDrawdown(log, i)
  {
    assert log[..n][..i + 1] == log[..i + 1];
  }

  lemma RatioNonNegative(log: seq<real>)
    requires log != []
    ensures Ratio(RunningHigh(log), log[|log| - 1]) >= 0.0
  {
    var h, b := RunningHigh(log), log[|log| - 1];
    assert b <= h;
    if h > 0.0 { QuotientNonNegative(h - b, h); }
  }

  lemma QuotientNonNegative(x: real, y: real)
    requires x >= 0.0 && y > 0.0
    ensures x / y >= 0.0
  {
  }

  lemma {:induction false} MaxDrawdownIsPeak(log: seq<real>)
    ensures MaxDrawdown(log) >= 0.0
    ensures IsPeakDrawdown(log, MaxDrawdown(log))
  {
    if log != [] {
      hide Ratio, RunningHigh;
      var n := |log| - 1;
      var init := log[..n];
      MaxDrawdownIsPeak(init);
      RatioNonNegative(log);
      ZeroHigh(log);
      assert log[..n + 1] == log;
      forall i | 0 <= i < n
        ensures LogDrawdown(log, i) == LogDrawdown(init, i)
      {
        PrefixOfPrefix(log, n, i);
      }
      assert forall i | 0 <= i < |log| :: i == n || LogDrawdown(log, i) == LogDrawdown(init, i);
      if MaxDrawdown(log) == MaxDrawdown(init) {
        if MaxDrawdown(init) != 0.0 {
          var i :| 0 <= i < |init| && LogDrawdown(init, i) == MaxDrawdown(init);
          assert LogDrawdown(log, i) == MaxDrawdown(log);
        }
      } else {
        assert LogDrawdown(log, n) == MaxDrawdown(log);
      }
    }
  }

  lemma ZeroHigh(log: seq<real>)
    requires log != []
    ensures RunningHigh(log) <= 0.0 ==> Ratio(RunningHigh(log), log[|log| - 1]) == 0.0
  {
  }

  /** The agent's loop over the logged balances. */
  method ComputeMaxDrawdown(balances: seq<real>) returns (maxDd: real)
    ensures maxDd == MaxDrawdown(balances)
    ensures IsPeakDrawdown(balances, maxDd)
  {
    var hwm := 0.0;
    maxDd := 0.0;
    for i := 0 to |balances|
      invariant hwm == RunningHigh(balances[..i])
      invariant maxDd == MaxDrawdown(balances[..i])
    {
      assert balances[..i + 1][..i] == balances[..i];
      var b := balances[i];
      hwm := Max(hwm, b);
      if hwm > 0.0 {
        var dd := (hwm - b) / hwm;
        maxDd := Max(maxDd, dd);
      }
    }
    assert balances[..|balances|] == balances;
    MaxDrawdownIsPeak(balances);
  }

  // ----- Agreement -----

  /** The bot's incremental values restate what the agent would compute from the log. */
  ghost predicate Agree(e: Equity, log: seq<real>) {
    && log != [] && log[|log| - 1] == e.balance
    && Max(e.highWater, 0.0) == RunningHigh(log)
    && e.peak == MaxDrawdown(log)
  }

  /** After a restart the bot has forgotten: it can only be at or below the agent. */
  ghost predicate Below(e: Equity, log: seq<real>) {
    && log != [] && log[|log| - 1] == e.balance
    && e.balance <= e.highWater
    && Max(e.highWater, 0.0) <= RunningHigh(log)
    && 0.0 <= e.peak <= MaxDrawdown(log)
  }

  lemma OpenAgrees(starting: real)
    ensures Agree(Open(starting, starting), [starting])
  {
    assert [starting][..0] == [];
    assert RunningHigh([starting]) == Max(RunningHigh([]), starting);
  }

  lemma LogGrows(log: seq<real>, b: real)
    ensures RunningHigh(log + [b]) == Max(RunningHigh(log), b)
    ensures MaxDrawdown(log + [b])
         == if RunningHigh(log + [b]) > 0.0 then Max(MaxDrawdown(log), Ratio(RunningHigh(log + [b]), b))
            else MaxDrawdown(log)
  {
    assert (log + [b])[..|log|] == log;
  }

  /** Every result or correction that is also logged keeps bot and agent in exact agreement. */
  lemma MoveAgrees(e: Equity, log: seq<real>, delta: real)
    requires Agree(e, log)
    ensures Agree(Move(e, delta), log + [e.balance + delta])
  {
    hide Ratio;
    LogGrows(log, e.balance + delta);
    MaxDrawdownIsPeak(log);
    ZeroRatio(Move(e, delta).highWater, e.balance + delta);
  }

  lemma ZeroRatio(highWater: real, balance: real)
    ensures highWater <= 0.0 ==> Ratio(highWater, balance) == 0.0
  {
  }

  lemma AgreeIsBelow(e: Equity, log: seq<real>)
    requires Agree(e, log) && e.balance <= e.highWater
    ensures Below(e, log)
  {
    MaxDrawdownIsPeak(log);
  }

  /** Reopening from the last logged balance, with the same starting balance, lands at or below the agent. */
  lemma ReopenBelow(starting: real, log: seq<real>)
    requires log != [] && log[0] == starting
    ensures Below(Open(starting, log[|log| - 1]), log)
  {
    MaxDrawdownIsPeak(log);
    assert log[0] <= RunningHigh(log) && log[|log| - 1] <= RunningHigh(log);
  }

  /** While the balance stays non-negative the reopened bot never reports more than the agent. */
  lemma MoveBelow(e: Equity, log: seq<real>, delta: real)
    requires Below(e, log)
    requires e.balance + delta >= 0.0
    ensures Below(Move(e, delta), log + [e.balance + delta])
  {
    hide Ratio;
    var b := e.balance + delta;
    var log' := log + [b];
    LogGrows(log, b);
    MaxDrawdownIsPeak(log);
    var h, h' := Move(e, delta).highWater, RunningHigh(log');
    ZeroRatio(h, b);
    if h > 0.0 {
      RatioOrder(h, h', b);
    }
  }

  /**
   * Against two different high-water marks the one new entry reads no deeper on the bot's side
   * exactly when the balance is not negative: this is where agreement after a restart can break.
   */
  lemma RatioOrder(h: real, h': real, b: real)
    requires 0.0 < h <= h'
    ensures Ratio(h, b) <= Ratio(h', b) <==> b >= 0.0 || h == h'
  {
    var x, y := Ratio(h, b), Ratio(h', b);
    DivMul(h - b, h);
    DivMul(h' - b, h');
    assert x * h == h - b && y * h' == h' - b;
    CrossOrder(x, y, h, h', b);
  }

  lemma CrossOrder(x: real, y: real, h: real, h': real, b: real)
    requires 0.0 < h <= h' && x * h == h - b && y * h' == h' - b
    ensures x <= y <==> b >= 0.0 || h == h'
  {
    var d := h' - h;
    MulPos(h, h');
    calc {
      (y - x) * (h * h');
    ==
      (y * h') * h - (x * h) * h';
    ==
      (h' - b) * h - (h - b) * h';
    ==
      b * d;
    }
    if b >= 0.0 {
      MulLe(0.0, b, d);
      if x > y { MulLt(y - x, 0.0, h * h'); }
    } else if d > 0.0 {
      MulLt(b, 0.0, d);
      if x <= y { MulLe(0.0, y - x, h * h'); }
    } else {
      assert h == h' && b * d == 0.0;
      if x > y { MulLt(y - x, 0.0, h * h'); }
    }
  }

  /** Bot and log share their high-water mark, and the bot reads no deeper. */
  ghost predicate SameMark(e: Equity, log: seq<real>) {
    && log != [] && log[|log| - 1] == e.balance
    && Max(e.highWater, 0.0) == RunningHigh(log)
    && 0.0 <= e.peak <= MaxDrawdown(log)
  }

  /** With a shared mark the bound survives every later balance, negative ones included. */
  lemma MoveKeepsMark(e: Equity, log: seq<real>, delta: real)
    requires SameMark(e, log)
    ensures SameMark(Move(e, delta), log + [e.balance + delta])
  {
    hide Ratio;
    LogGrows(log, e.balance + delta);
    ZeroRatio(Move(e, delta).highWater, e.balance + delta);
  }

  /** With a positive mark below the log's, one further move breaks the bound, however deep the log already reads. */
  lemma LowMarkBreaks(e: Equity, log: seq<real>) returns (delta: real)
    requires log != [] && e.balance <= e.highWater && 0.0 < e.highWater < RunningHigh(log)
    ensures Move(e, delta).peak > MaxDrawdown(log + [e.balance + delta])
  {
    hide Ratio, MaxDrawdown, RunningHigh;
    var h, high, deepest := e.highWater, RunningHigh(log), MaxDrawdown(log);
    MaxDrawdownIsPeak(log);
    var b := DeepBalance(h, deepest);
    delta := b - e.balance;
    assert e.balance + delta == b;
    LogGrows(log, b);
    RatioOrder(h, high, b);
  }

  /** A negative balance whose drawdown from `h` exceeds `deepest`. */
  lemma DeepBalance(h: real, deepest: real) returns (b: real)
    requires h > 0.0 && deepest >= 0.0
    ensures b < 0.0 && Ratio(h, b) > deepest
  {
    b := -((deepest + 1.0) * h);
    MulPos(deepest + 1.0, h);
    DivMul(h - b, h);
    assert h - b == h + (deepest * h + h);
    if Ratio(h, b) <= deepest {
      MulLe(Ratio(h, b), deepest, h);
    }
  }

  /** With a mark at or below zero, a move up to half the log's high comes first. */
  lemma HalfWay(e: Equity, log: seq<real>)
    requires log != [] && log[|log| - 1] == e.balance && e.highWater <= 0.0 < RunningHigh(log)
    ensures var half := RunningHigh(log) / 2.0;
            var e1, log1 := Move(e, half - e.balance), log + [half];
            && e1.balance == half == e1.highWater && 0.0 < e1.highWater < RunningHigh(log1)
               && log1[|log1| - 1] == e1.balance
  {
    hide Ratio, MaxDrawdown, RunningHigh;
    LogGrows(log, RunningHigh(log) / 2.0);
  }
}
