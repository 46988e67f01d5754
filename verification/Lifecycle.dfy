/** What happens to open trades after they are filled: market close, settlement, correction, restart. */
module Lifecycle {
  import opened Basics
  import opened Settings
  import opened Reserves
  import opened Executor
  import opened Fees
  import Bankroll

  /** Market close: each open trade of the market moves its reserve to pending settlement, in row order. */
  function CloseUpTo(r: Reserve, ts: seq<Trade>, market: string, n: nat): (res: (Reserve, seq<Trade>))
    requires n <= |ts|
    ensures |res.1| == |ts|
    ensures forall i | n <= i < |ts| :: res.1[i] == ts[i]
    ensures forall i | 0 <= i < n :: res.1[i] == if ts[i].window.market == market then ts[i].(settling := true)
            else ts[i]
  {
    if n == 0 then (r, ts)
    else
      var (r1, ts1) := CloseUpTo(r, ts, market, n - 1);
      var t := ts[n - 1];
      if t.window.market == market
      then (Transition(r1, FamilyOf(t.strategy), Cost(t.size, t.entry)), ts1[n - 1 := t.(settling := true)])
      else (r1, ts1)
  }

  function CloseMarket(d: Desk, market: string): Desk {
    var (r, ts) := CloseUpTo(d.bank.reserve, d.trades, market, |d.trades|);
    d.(bank := d.bank.(reserve := r), trades := ts)
  }

  function SettlementPrice(t: Trade, winner: Side): real {
    if t.side == winner then 1.0 else 0.0
  }

  function SettlementFee(t: Trade, c: Config): real {
    TakerFee(t.entry, t.size, WindowFees(t.window, c))
  }

  function SettlementPnl(t: Trade, winner: Side, c: Config): real {
    Bankroll.TradePnl(t.entry, t.size, SettlementPrice(t, winner), SettlementFee(t, c))
  }

  /** Settlement of one trade; the balance after it is appended to the balance log. */
  function Settle(d: Desk, i: nat, winner: Side, c: Config): Desk
    requires i < |d.trades|
  {
    var t := d.trades[i];
    var bank := Bankroll.ApplyResult(d.bank, t.entry, t.size, SettlementPrice(t, winner), SettlementFee(t, c),
                                     t.strategy, c.kellyWindow);
    d.(bank := bank, trades := d.trades[..i] + d.trades[i + 1..], log := d.log + [bank.equity.balance])
  }

  function Correct(d: Desk, oldPnl: real, newPnl: real): Desk {
    var bank := Bankroll.ApplyCorrection(d.bank, oldPnl, newPnl);
    d.(bank := bank, log := d.log + [bank.equity.balance])
  }

  function ExposureOf(t: Trade): Bankroll.Exposure {
    Bankroll.Exposure(t.strategy, t.entry, t.size, t.window.endTime)
  }

  function Exposures(ts: seq<Trade>): seq<Bankroll.Exposure> {
    seq(|ts|, i requires 0 <= i < |ts| => ExposureOf(ts[i]))
  }

  function Reclassify(t: Trade, now: nat): Trade {
    t.(settling := t.window.endTime <= now)
  }

  function Reclassified(ts: seq<Trade>, now: nat): seq<Trade> {
    seq(|ts|, i requires 0 <= i < |ts| => Reclassify(ts[i], now))
  }

  /** A new process: balance from the log, reserve from the stored trades, an empty queue. */
  function Restart(d: Desk, starting: real, now: nat): Desk {
    var current := if d.log == [] then starting else d.log[|d.log| - 1];
    var log := if d.log == [] then [starting] else d.log;
    var bank := Bankroll.Open(starting, current);
    Desk(bank.(reserve := Bankroll.HydrateAll(EMPTY, Exposures(d.trades), now)),
         NewEngine(d.engine.session + 1), Reclassified(d.trades, now), log)
  }
}
