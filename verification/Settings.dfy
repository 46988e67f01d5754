/** The configuration values the money core reads, fixed over a run. */
module Settings {
  import opened Basics

  datatype Family = LatencyArb | SpreadCapture | CalmPersistence

  /**
   * A persisted strategy name, sorted by what the name-to-family table makes of it:
   * `Known(f)` is the one name that maps to `f`, `Unlisted` is any other string.
   */
  datatype Strategy = Known(family: Family) | Unlisted(name: string)

  /** Names outside the table fall back to the latency family. */
  function FamilyOf(s: Strategy): Family {
    match s
    case Known(f) => f
    case Unlisted(_) => LatencyArb
  }

  datatype ExecutionMode = Paper | LiveReadonly | LiveTrading

  datatype ReserveMode = Compatibility | Conservative | Risky | Custom

  datatype Policy = Policy(mode: ReserveMode, familyFraction: real, globalFraction: real, countsAsOpen: bool)

  datatype Config = Config(
    maxPositionFraction: real,
    latencyFraction: Option<real>,
    spreadFraction: Option<real>,
    calmFraction: Option<real>,
    maxPositionUsdFraction: real,
    maxPositionUsd: real,
    minBetUsd: real,
    minBalance: real,
    maxDrawdownPct: real,
    pausePct: real,
    pauseMs: nat,
    recoveryPct: real,
    kellyFraction: real,
    minWinRateForKelly: real,
    minTradesForKelly: nat,
    minKellyFloor: real,
    kellyWindow: nat,
    pendingFamilyFraction: real,
    pendingGlobalFraction: real,
    pendingCountsAsOpen: bool,
    mode: ExecutionMode,
    enforceCaps: bool,
    maxOpenNotional: real,
    sessionCashCap: real,
    maxOpenPositions: nat,
    orderLatencyMs: nat,
    maxBookStalenessMs: nat,
    latencyMaxAsk: real,
    calmMaxAsk: real,
    takerFeeRate: real,
    takerFeeExponent: nat,
    takerFeeOverride: bool)

  function Close(a: real, b: real): bool {
    Abs(a - b) <= 0.000000001
  }

  function Classify(familyFraction: real, globalFraction: real, countsAsOpen: bool): Policy {
    var mode :=
      if Close(familyFraction, 1.0) && Close(globalFraction, 1.0) && countsAsOpen then Compatibility
      else if Close(familyFraction, 0.0) && Close(globalFraction, 1.0) && !countsAsOpen then Conservative
      else if Close(familyFraction, 0.0) && Close(globalFraction, 0.25) && !countsAsOpen then Risky
      else Custom;
    Policy(mode, familyFraction, globalFraction, countsAsOpen)
  }

  function PendingPolicy(c: Config): Policy {
    Classify(c.pendingFamilyFraction, c.pendingGlobalFraction, c.pendingCountsAsOpen)
  }

  /** The startup check on a policy: both fractions lie in [0, 1]. */
  predicate PolicyValid(p: Policy) {
    0.0 <= p.familyFraction <= 1.0 && 0.0 <= p.globalFraction <= 1.0
  }

  predicate IsLive(c: Config) {
    c.mode.LiveReadonly? || c.mode.LiveTrading?
  }

  function Ceiling(c: Config): Option<real> {
    if IsLive(c) || c.enforceCaps then Some(Min(c.maxOpenNotional, c.sessionCashCap)) else None
  }

  /** The startup check on the ceiling: whenever one is enforced, both caps are positive. */
  predicate CeilingValid(c: Config) {
    Ceiling(c).Some? ==> c.maxOpenNotional > 0.0 && c.sessionCashCap > 0.0
  }

  function ExplicitSleeve(f: Family, c: Config): Option<real> {
    match f
    case LatencyArb => c.latencyFraction
    case SpreadCapture => c.spreadFraction
    case CalmPersistence => c.calmFraction
  }

  function FractionTarget(f: Family, c: Config): real {
    ExplicitSleeve(f, c).GetOr(c.maxPositionFraction)
  }

  /**
   * Each mode name means exactly one kind of triple, whatever the order of the tests, and the triple is
   * kept as given.
   */
  lemma ModeMeansFraction(familyFraction: real, globalFraction: real, countsAsOpen: bool)
    ensures var p := Classify(familyFraction, globalFraction, countsAsOpen);
            && (p.mode == Compatibility <==> Close(familyFraction, 1.0) && Close(globalFraction, 1.0) && countsAsOpen)
            && (p.mode == Conservative <==> Close(familyFraction, 0.0) && Close(globalFraction, 1.0) && !countsAsOpen)
            && (p.mode == Risky <==> Close(familyFraction, 0.0) && Close(globalFraction, 0.25) && !countsAsOpen)
            && (p.familyFraction, p.globalFraction, p.countsAsOpen) == (familyFraction, globalFraction, countsAsOpen)
  {
  }
}
