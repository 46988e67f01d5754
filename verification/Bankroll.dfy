/** The bankroll as a value: sizing rules, the trading gate, and the effect of each operation. */
module Bankroll {
  import opened Basics
  import opened Settings
  import opened Reserves
  import Drawdown
  import DrawdownPause

  // ----- Per-strategy results, for Kelly sizing -----

  datatype Tally = Tally(wins: nat, losses: nat)

  datatype TradeOutcome = TradeOutcome(strategy: Strategy, won: bool)

  datatype History = History(tallies: map<Strategy, Tally>, recent: seq<TradeOutcome>, wins: nat, losses: nat,
                             trades: nat)

  const NO_HISTORY := History(map[], [], 0, 0, 0)

  function TallyOf(h: History, s: Strategy): Tally {
    if s in h.tallies then h.tallies[s] else Tally(0, 0)
  }

  function Record(h: History, o: TradeOutcome, window: nat): History {
    var t := TallyOf(h, o.strategy);
    var t' := if o.won then t.(wins := t.wins + 1) else t.(losses := t.losses + 1);
    var pushed := h.recent + [o];
    History(
      h.tallies[o.strategy := t'],
      if |pushed| > window then pushed[1..] else pushed,
      if o.won then h.wins + 1 else h.wins,
      if o.won then h.losses else h.losses + 1,
      h.trades + 1)
  }

  function CountOf(os: seq<TradeOutcome>, s: Strategy, won: bool): nat {
    if os == [] then 0
    else CountOf(os[..|os| - 1], s, won) + if os[|os| - 1] == TradeOutcome(s, won) then 1 else 0
  }

  function WinRate(h: History, s: Strategy): real {
    var wins, losses := CountOf(h.recent, s, true), CountOf(h.recent, s, false);
    var t := TallyOf(h, s);
    if wins + losses >= 5 then wins as real / (wins + losses) as real
    else if t.wins + t.losses > 0 then t.wins as real / (t.wins + t.losses) as real
    else 0.0
  }

  function RecordAll(os: seq<TradeOutcome>, window: nat): History {
    if os == [] then NO_HISTORY else Record(RecordAll(os[..|os| - 1], window), os[|os| - 1], window)
  }

  /** The rolling list is exactly the last `window` results. */
  lemma {:induction false} RecentIsWindow(os: seq<TradeOutcome>, window: nat)
    ensures RecordAll(os, window).recent == if |os| <= window then os else os[|os| - window..]
  {
    if os != [] {
      RecentIsWindow(os[..|os| - 1], window);
      assert os == os[..|os| - 1] + [os[|os| - 1]];
    }
  }

  /** The lifetime tallies count every result, strategy by strategy. */
  lemma {:induction false} TalliesCount(os: seq<TradeOutcome>, window: nat, s: Strategy)
    ensures TallyOf(RecordAll(os, window), s) == Tally(CountOf(os, s, true), CountOf(os, s, false))
  {
    if os != [] {
      TalliesCount(os[..|os| - 1], window, s);
    }
  }

  // ----- The bankroll -----

  datatype Bank = Bank(
    starting: real,
    equity: Drawdown.Equity,
    reserve: Reserve,
    pause: DrawdownPause.Pause,
    history: History,
    totalFees: real)

  function Open(starting: real, current: real): Bank {
    Bank(starting, Drawdown.Open(starting, current), EMPTY, DrawdownPause.INITIAL, NO_HISTORY, 0.0)
  }

  /** The configuration-weighted reserve that the account-level check subtracts. */
  function EffectiveReserved(r: Reserve, c: Config): real {
    r.active.Sum() + Share(r.pending.Sum(), PendingPolicy(c).globalFraction)
  }

  function EffectiveForFamily(r: Reserve, f: Family, c: Config): real {
    r.active.Get(f) + Share(r.pending.Get(f), PendingPolicy(c).familyFraction)
  }

  /** What the open-exposure ceiling still admits; `None` stands for no ceiling. */
  function Headroom(r: Reserve, c: Config): Option<real> {
    match Ceiling(c)
    case None => None
    case Some(ceiling) => Some(Max(ceiling - r.Committed(), 0.0))
  }

  function Capped(x: real, limit: Option<real>): real {
    if limit.None? then x else Min(x, limit.value)
  }

  function Share(balance: real, fraction: real): real {
    balance * fraction
  }

  /** Largest notional one order of the family may carry, before the ceiling. */
  function Budget(b: Bank, f: Family, c: Config): real {
    var balance := b.equity.balance;
    var available := Max(balance - EffectiveReserved(b.reserve, c), 0.0);
    var budget := Min(Min(Min(available, Share(balance, c.maxPositionUsdFraction)), c.maxPositionUsd),
                      Share(balance, FractionTarget(f, c)));
    var sleeve := ExplicitSleeve(f, c);
    if sleeve.Some? then
      var familyBudget := Max(Share(balance, sleeve.value) - EffectiveForFamily(b.reserve, f, c), 0.0);
      Max(Min(budget, familyBudget), 0.0)
    else Max(budget, 0.0)
  }

  /** The budget, further limited by free balance and by the ceiling. */
  function Available(b: Bank, f: Family, c: Config): real {
    Capped(Min(Budget(b, f, c), b.equity.balance - EffectiveReserved(b.reserve, c)), Headroom(b.reserve, c))
  }

  function KellyFraction(entry: real, winRate: real, c: Config): real
    requires 0.0 < entry < 1.0
  {
    if winRate < c.minWinRateForKelly then c.minKellyFloor
    else
      var odds := (1.0 - entry) / entry;
      OddsPositive(entry);
      var full := (odds * winRate - (1.0 - winRate)) / odds;
      if full <= 0.0 then c.minKellyFloor else full * c.kellyFraction
  }

  lemma OddsPositive(entry: real)
    requires 0.0 < entry < 1.0
    ensures (1.0 - entry) / entry > 0.0
  {
  }

  function PositionFraction(h: History, entry: real, confidence: real, s: Strategy, f: Family, c: Config): real
    requires 0.0 < entry < 1.0
  {
    var t := TallyOf(h, s);
    var fraction :=
      if t.wins + t.losses >= c.minTradesForKelly then KellyFraction(entry, WinRate(h, s), c)
      else FractionTarget(f, c);
    Min(fraction * Max((confidence - 0.5) * 2.5, 0.0), FractionTarget(f, c))
  }

  // ----- Sizing -----

  predicate PriceOk(p: real) {
    0.0 < p < 1.0
  }

  /** Tokens for a one-sided order: sized by Kelly, affordable at the reserve price, bumped to the minimum bet. */
  function SingleTokens(b: Bank, entry: real, reservePrice: real, confidence: real, s: Strategy, f: Family,
                        c: Config): real {
    if !PriceOk(entry) || !PriceOk(reservePrice) then 0.0
    else
      var available := Available(b, f, c);
      if available <= 0.0 then 0.0
      else
        var fraction := PositionFraction(b.history, entry, confidence, s, f, c);
        if fraction <= 0.0 then 0.0
        else
          var balance := b.equity.balance;
          var maxPosition := Share(balance, c.maxPositionUsdFraction);
          var notional := Min(Min(Min(Share(balance, fraction), available), maxPosition), c.maxPositionUsd);
          TokensFor(notional, available, maxPosition, c.maxPositionUsd, entry, reservePrice, c.minBetUsd)
  }

  function TokensFor(notional: real, available: real, cap1: real, cap2: real, entry: real, reservePrice: real,
                     minBet: real): real
    requires PriceOk(entry) && PriceOk(reservePrice)
  {
    var count := Floor(notional / reservePrice);
    var minTokens := Ceil(minBet / entry);
    var cost := Cost(minTokens, reservePrice);
    var tokens :=
      if count > 0.0 && Cost(count, entry) < minBet && cost <= available && cost <= cap1 && cost <= cap2
      then minTokens else count;
    if tokens <= 0.0 then 0.0 else tokens
  }

  /** Balanced units of a two-sided order. */
  function PairUnits(b: Bank, up: real, down: real, f: Family, c: Config): real {
    if !PriceOk(up) || !PriceOk(down) then 0.0
    else
      var available := Available(b, f, c);
      if available <= 0.0 then 0.0 else Max(Floor(available / (up + down)), 0.0)
  }

  // ----- Operations -----

  function CanTrade(b: Bank, c: Config, now: nat): (bool, Bank) {
    var (verdict, pause) := DrawdownPause.Check(b.pause, b.equity.balance, Drawdown.Current(b.equity), c, now);
    (verdict.Allowed?, b.(pause := pause))
  }

  function ReserveSingle(b: Bank, entry: real, reservePrice: real, confidence: real, s: Strategy, f: Family, c: Config,
                         now: nat)
    : (Bank, real)
  {
    var (allowed, b1) := CanTrade(b, c, now);
    if !allowed then (b1, 0.0)
    else
      var tokens := SingleTokens(b1, entry, reservePrice, confidence, s, f, c);
      if tokens <= 0.0 then (b1, 0.0)
      else (b1.(reserve := AddActive(b1.reserve, f, Cost(tokens, reservePrice))), tokens)
  }

  function ReserveSpread(b: Bank, up: real, down: real, f: Family, c: Config, now: nat): (Bank, real) {
    var (allowed, b1) := CanTrade(b, c, now);
    if !allowed then (b1, 0.0)
    else
      var units := PairUnits(b1, up, down, f, c);
      if units <= 0.0 then (b1, 0.0)
      else (b1.(reserve := AddActive(b1.reserve, f, Cost(units, up + down))), units)
  }

  function ReleaseFor(b: Bank, amount: real, s: Strategy): Bank {
    b.(reserve := Release(b.reserve, FamilyOf(s), amount))
  }

  function TransitionFor(b: Bank, amount: real, s: Strategy): Bank {
    b.(reserve := Transition(b.reserve, FamilyOf(s), amount))
  }

  function TradePnl(entry: real, size: real, settlement: real, fee: real): real {
    Cost(size, settlement) - Cost(size, entry) - fee
  }

  /** Close one trade: free its cost, move the balance by its profit, record the result. */
  function ApplyResult(b: Bank, entry: real, size: real, settlement: real, fee: real, s: Strategy, window: nat): Bank {
    var pnl := TradePnl(entry, size, settlement, fee);
    b.(reserve := Release(b.reserve, FamilyOf(s), Cost(size, entry)),
       equity := Drawdown.Move(b.equity, pnl),
       history := Record(b.history, TradeOutcome(s, pnl > 0.0), window),
       totalFees := b.totalFees + fee)
  }

  /** Replace a provisional result: the balance and the win/loss counters move, the per-strategy history does not. */
  function ApplyCorrection(b: Bank, oldPnl: real, newPnl: real): Bank {
    var delta := newPnl - oldPnl;
    var h := b.history;
    b.(equity := Drawdown.Move(b.equity, delta),
       totalFees := Max(b.totalFees + delta, 0.0),
       history :=
         if oldPnl > 0.0 && newPnl <= 0.0 then h.(wins := if h.wins > 0 then h.wins - 1 else 0, losses := h.losses + 1)
         else if oldPnl <= 0.0 && newPnl > 0.0
           then h.(losses := if h.losses > 0 then h.losses - 1 else 0, wins := h.wins + 1)
         else h)
  }

  datatype Exposure = Exposure(strategy: Strategy, entry: real, size: real, marketEnd: nat)

  /** Rebuild the reserve of one unresolved trade after a restart. */
  function Hydrate(r: Reserve, x: Exposure, now: nat): Reserve {
    if x.marketEnd <= now then AddPending(r, FamilyOf(x.strategy), Cost(x.size, x.entry))
    else AddActive(r, FamilyOf(x.strategy), Cost(x.size, x.entry))
  }

  function HydrateAll(r: Reserve, xs: seq<Exposure>, now: nat): Reserve {
    if xs == [] then r else Hydrate(HydrateAll(r, xs[..|xs| - 1], now), xs[|xs| - 1], now)
  }

  // ----- Spread affordability -----

  datatype AffordabilityFailure = SpreadBudgetTooSmall | BelowMarketMinSize

  datatype Affordability = Affordability(queueable: bool, budget: real, units: real, notional: real,
                                         failure: Option<AffordabilityFailure>)

  function UnitsForBet(up: real, down: real, minBet: real): real
    requires up != 0.0 && down != 0.0
  {
    Max(Ceil(minBet / up), Ceil(minBet / down))
  }

  function UnitsForMarket(minSize: real): real {
    if minSize > 0.0 then Ceil(minSize) else 0.0
  }

  function RequiredUnits(up: real, down: real, minSize: real, minBet: real): real
    requires up != 0.0 && down != 0.0
  {
    Max(Max(UnitsForBet(up, down, minBet), UnitsForMarket(minSize)), 1.0)
  }

  function Assess(b: Bank, up: real, down: real, minSize: real, f: Family, c: Config): Affordability {
    var budget := Budget(b, f, c);
    if !PriceOk(up) || !PriceOk(down) then Affordability(false, budget, 0.0, 0.0, Some(SpreadBudgetTooSmall))
    else
      var units := RequiredUnits(up, down, minSize, c.minBetUsd);
      var notional := Cost(units, up + down);
      if budget + 0.000000001 >= notional then Affordability(true, budget, units, notional, None)
      else
        var failure := if UnitsForMarket(minSize) > UnitsForBet(up, down, c.minBetUsd) then BelowMarketMinSize
                       else SpreadBudgetTooSmall;
        Affordability(false, budget, units, notional, Some(failure))
  }
}
