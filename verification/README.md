# Verified model of the paper-trading money core

This project models the part of the repository that decides where money is, and proves what every
run of it keeps. It has three parts.

**The trading desk.** `BankrollManager` reserves capital in two buckets per strategy family (active,
pending settlement), sizes orders under several caps at once and pauses trading on drawdown.
`ExecutionEngine` queues delayed orders and defers, misses, partially fills or fills them. Both are
modelled twice: as values with pure functions (`Bankroll`, `Executor`, `Lifecycle`) and as the mutable
objects the bot holds (`BankrollManager.Manager`, `ExecutionEngine.PaperEngine`), whose methods are
proved to do what the functions say. `TradingRun` turns the functions into a state machine with seven
events (submit one side, submit a spread, process due orders, market close, settlement, settlement
correction, restart); `RunInvariants` proves that each event keeps the invariants; `Theorems` states
the results for every run, with any failing storage write in any batch. `Precheck` ties the spread
precheck to the submission it predicts. `Fees`, `FeeSlope`, `LockedEdge` and `SquareFee` work out when the
fee polynomial lets a spread lock its profit in, with a tangent bound in place of calculus, and
`LockedRun`, `Insolvency`, `RestartBound` and `GroupReuse` exhibit the runs in which a promise fails.

**The user-stream monitor.** `UserStream` models `WsUserStreamMonitor` with one event handler and the
microtasks it releases as one step. `UserStreamAlways` proves what every event keeps under any timing,
`UserStreamRuns` holds the results over runs, and `UserStreamMonitor` is the object itself: attempt
objects shared with their socket callbacks, sorted market arrays (`MarketLists`), and the connect loop
between its awaits, each handler proved to take its step and to keep those promises. `OrderIntents`
models the client-id cache of the same sidecar.

**The agent's folds and the circuit breaker.** `SignalGroups` is the burst-grouping loop, `Drawdown`
the drawdown recomputation together with the bot's incremental value, `CircuitBreaker` the
loss-streak pause.

## What turned out to hold only on a condition

The code is modelled as it is. Where a natural property fails, the failing case is exhibited and the
condition under which the property holds is proved.

- *Reserve conservation under storage failure.* A fill whose trade row cannot be written keeps its
  cost reserved with nothing to show for it. Conservation carries this as an `orphaned` term, which a
  batch grows by exactly that fill's cost (`BatchOrphans`), which is zero while writes succeed and is
  cleared by a restart.
- *Solvency* holds when the global pending fraction is 1 (`Solvency`), and for every smaller fraction
  there is a run that commits more than the balance (`DiscountBreaksSolvency`). The named "risky"
  policy, with 0.25, is such a fraction.
- *Locked spread profit.* A pair quoted with positive edge pays after any price improvement if and only
  if there is no fee, the exponent is at most 1, or the fee never falls faster than the price rises
  (`LocksExactly`). At exponent 1 this covers every rate; at exponent 2 it is a quadratic inequality on
  the rate, which holds up to about 7.38 (`SquareExactly`); a rate of at most 1 is safe at every exponent
  (`LowRateSafe`). Under every other fee some run ends with both legs of an accepted spread filled in
  equal size at a loss (`UnsafeFeeLosesInRun`).
- *Drawdown after a restart.* Until the next restart the bot reads at most the agent's value in every
  continuation, if and only if the balance log never exceeded the starting balance, the current balance
  and zero (`RestartBoundExactly`). When it did, the bound still holds while the balance stays
  non-negative (`DrawdownAfterRestart`), and under every setup some run breaks it (`RestartBoundFails`).
- *Drawdown pause length.* A pause lasts `peak_dd_pause_ms` if and only if the drawdown is not below
  the recovery threshold; with a negative recovery margin it can restart on every call
  (`SteadyPauseExact`).
- *Spread precheck.* It tolerates 1e-9 and does not look at the exposure ceiling; `VerdictExact` gives
  the exact condition under which a positive verdict is right. A refusal is always right.
- *Spread rejection.* A spread is reserved from the spread family and released through its
  strategy's family, so a rejection undoes the reservation if and only if the strategy maps to that
  family (`RejectionUndoesExactly`). Runs therefore take spread signals whose strategy does.
- *Group numbers* start again at 1 in every process, so they identify a spread only within a session;
  `RestartReusesNumbers` is a run in which two spreads of one database both get number 1.
- *No stranded stream.* A heartbeat that fails while its attempt is still undecided leaves the connect
  loop waiting forever. This cannot happen if and only if the ready grace is shorter than the ping
  interval or the connect timeout is not longer than it (`NoStrandedStream`, `UnsafeTimingSticks`); the
  defaults qualify. What connected means, the failure count, inert stale events and the finality of close
  do not depend on timing. A socket
  constructor that throws strands the stream while its status can still read ok
  (`ThrowingSocketStrands`).
- *One venue post per client id* holds for calls that do not overlap on an id (`AtMostOnePost`) and
  fails as soon as two do (`OverlapPostsTwice`), since the cache is written after awaits.

## Model

| member | source | states |
|---|---|---|
| `Theorems.ReserveConservation` | bots/paint/src/executor.rs:558-767 | in every run, for each family, active plus pending reserve equals the reserve of queued orders plus the cost of open trades plus orphaned cost (zero while writes succeed); the active bucket never exceeds queued orders plus trades still live |
| `Theorems.RestartRebuildsReserve` | bots/paint/src/bankroll.rs:793-836 | from any reachable state a restart leaves an empty queue, each family's reserve equal to the cost of its open trades alone, and the balance unchanged |
| `Theorems.Solvency` | bots/paint/src/bankroll.rs:839-847 | with global pending fraction 1, a non-negative start and no corrections, committed cost never exceeds balance plus fees paid, and the balance never falls below minus those fees |
| `Insolvency.DiscountBreaksSolvency` | bots/paint/src/config.rs:200-211 | for every global fraction below 1 there is a run, without corrections, faults or fees, that commits more than the balance |
| `Theorems.CeilingHolds` | bots/paint/src/bankroll.rs:854-862 | an enforced open-exposure ceiling bounds raw committed exposure at every point of every run, whatever the pending policy discounts |
| `Theorems.CloseKeepsExposure` | bots/paint/src/bankroll.rs:890-904 | in every reachable state, closing a market leaves committed exposure, ceiling headroom and every family's total unchanged |
| `Theorems.OrdersAccounted` | bots/paint/src/executor.rs:452-513 | submitted orders equal filled plus missed plus queued after every event, also when a write fails mid-batch |
| `Theorems.PositionsUniqueAndCapped` | bots/paint/src/executor.rs:516-549 | over queued orders and open trades no two share market, strategy and side, and queued plus slot-taking trades never exceed the limit, under both pending-counting policies |
| `Theorems.GroupNumbersFresh` | bots/paint/src/executor.rs:406-448 | the next group number has not been given to any spread of this session |
| `GroupReuse.RestartReusesNumbers` | bots/paint/src/executor.rs:187-194 | a run in which two accepted spreads of one database, before and after a restart, both carry number 1 |
| `Theorems.LeggingExact` | bots/paint/src/executor.rs:463-513 | while writes succeed, queued legs stay in adjacent pairs and both legging counters equal the number of groups with exactly one filled leg |
| `Theorems.PairIsOpposed` | bots/paint/src/executor.rs:1064-1089 | two open legs of one group are on opposite sides of one market, each at or below the ask it was accepted at |
| `Theorems.LockedSpreadProfit` | bots/paint/src/executor.rs:339-351 | in every run, settling two equally sized legs of one spread raises the balance whichever side wins, for every safe fee and any price improvement |
| `LockedRun.UnsafeFeeLosesInRun` | bots/paint/src/executor.rs:339-351 | for every fee that is not safe some run ends with both legs of an accepted spread open in equal size, and settling them gains nothing whichever side wins |
| `Theorems.DrawdownAgreement` | bots/paint/src/bankroll.rs:450-465 | from a fresh database, through any results and corrections, the bot's peak drawdown equals the agent's recomputation over the balance log |
| `Theorems.DrawdownAfterRestart` | bots/paint/src/bankroll.rs:101-123 | after restarts the bot's peak drawdown is at most the agent's while the balance has stayed non-negative since |
| `RestartBound.RestartBoundExactly` | bots/paint/src/bankroll.rs:101-123 | from every reachable state, a restart leaves the bot at or below the agent in every continuation up to the next restart if and only if the log's running high equals the largest of starting balance, current balance and zero |
| `RestartBound.RestartBoundFails` | bots/paint/src/bankroll.rs:450-465 | under every setup some run with one restart ends with the bot above the agent |
| `RunInvariants.RunKeeps` | bots/paint/src/executor.rs:216-767 | all invariants together survive every legal run |
| `RunInvariants.NextKeeps` | bots/paint/src/executor.rs:216-767 | all invariants together survive each of the seven events |
| `RunInvariants.InitHolds` | bots/paint/src/bankroll.rs:101-140 | a fresh process on a fresh database satisfies all invariants |
| `RunInvariants.BooksAndSlotsKept` | bots/paint/src/bankroll.rs:783-836 | every event keeps conservation, the active-bucket bound, order accounting, uniqueness and the slot limit |
| `RunInvariants.SingleOutcome` | bots/paint/src/executor.rs:216-285 | a one-sided submission in a run only lets time and pause move, or queues one backed order into a free slot and a free position within every cap |
| `RunInvariants.SpreadOutcome` | bots/paint/src/executor.rs:306-403 | a spread in a run does the former, or queues two backed legs of a fresh group into two free slots, with a quote of positive net edge |
| `RunInvariants.QuotesKept` | bots/paint/src/executor.rs:306-403 | every event keeps each spread leg tied to an accepted quote with positive net edge |
| `RunInvariants.LegsKept` | bots/paint/src/executor.rs:1221-1234 | every event without a storage fault keeps the legging counters exact and nothing orphaned |
| `RunInvariants.MoneyKept` | bots/paint/src/bankroll.rs:404-424 | every event keeps solvency and the ceiling |
| `RunInvariants.EquityKept` | bots/paint/src/bankroll.rs:597-612 | every event keeps bot and agent drawdown in their relation and the pause state valid |
| `Ledger.ReserveThenRelease` | bots/paint/src/bankroll.rs:617-630 | releasing what was just reserved restores the reserve exactly |
| `Ledger.EnqueueConserves` | bots/paint/src/executor.rs:827-878 | queueing an order for which its cost was reserved keeps conservation |
| `Ledger.RejectConserves` | bots/paint/src/executor.rs:719-767 | a missed order gives back exactly its reserve |
| `Ledger.FillConserves` | bots/paint/src/executor.rs:655-716 | a fill keeps exactly its trade's cost reserved, for partial size and better price alike |
| `Ledger.OrphanConserves` | bots/paint/src/executor.rs:655-678 | a fill whose row is lost moves exactly its cost into the orphaned term |
| `Ledger.SettleConserves` | bots/paint/src/bankroll.rs:920-934 | settlement frees exactly the trade's cost, whichever bucket it is taken from |
| `Ledger.CloseOneConserves` | bots/paint/src/bankroll.rs:890-904 | reclassifying one trade keeps conservation and the committed total |
| `Ledger.HydrateConserves` | bots/paint/src/bankroll.rs:793-836 | rebuilding from stored rows yields conservation for those rows with an empty queue |
| `Batches.BatchKeeps` | bots/paint/src/executor.rs:452-513 | a whole batch, with a write failing anywhere, keeps conservation, accounting, uniqueness, slots and quotes |
| `Batches.BatchQueue` | bots/paint/src/executor.rs:476-484 | without a fault the queue is the deferred orders in their old order and all others are reported; with a fault exactly the failing order is neither queued nor reported |
| `Batches.BatchOrphans` | bots/paint/src/executor.rs:655-678 | a batch orphans reserve exactly when it loses a fill, and then exactly that fill's cost |
| `Batches.FillKeeps` | bots/paint/src/executor.rs:655-716 | one fill, stored or lost, keeps the batch invariant |
| `Batches.RejectKeeps` | bots/paint/src/executor.rs:719-767 | one miss keeps the batch invariant |
| `Legging.DecideTogether` | bots/paint/src/executor.rs:566-581 | both legs of a group are deferred together, and both or neither find no window |
| `Legging.PairGroups` | bots/paint/src/executor.rs:1221-1234 | a resolved pair is recorded as (legs filled, 2) |
| `Legging.BatchGroups` | bots/paint/src/executor.rs:463-513 | over a batch the recorded groups match the fill history and deferred pairs stay paired |
| `Legging.LeggedGrowth` | bots/paint/src/executor.rs:505-510 | the per-batch count equals the growth of the set of one-legged groups |
| `Legging.BatchLegsExact` | bots/paint/src/executor.rs:452-513 | a batch without storage faults keeps both counters exact |
| `Positions.HeldExactly` | bots/paint/src/executor.rs:781-823 | a position occurs in neither queue nor open trades if and only if both duplicate checks pass |
| `Positions.SingleQueueExactly` | bots/paint/src/executor.rs:781-823 | a one-sided signal may queue if and only if there is a slot and its strategy holds neither side of the market; the limit is the reason exactly when there is no slot |
| `Positions.SpreadQueueExactly` | bots/paint/src/executor.rs:516-549 | a spread may queue if and only if there are two slots and no signal's own side is held; the limit is the reason exactly when there are not |
| `Positions.CountActiveLater` | bots/paint/src/executor.rs:900-913 | as time passes no more open trades count against the limit |
| `Submissions.SubmitSingleEffect` | bots/paint/src/executor.rs:216-285 | a one-sided submission queues one order backed by exactly its reserve within every cap, or changes nothing but the pause state |
| `Submissions.SubmitPairEffect` | bots/paint/src/executor.rs:339-402 | a two-sided submission queues two backed legs of one new group, or changes nothing but the pause state |
| `Submissions.SubmitSpreadEffect` | bots/paint/src/executor.rs:306-403 | the same for a list of signals, with legs taken from an up and a down signal of the list |
| `Submissions.RejectionUndoesExactly` | bots/paint/src/executor.rs:360-378 | releasing a spread reservation through a strategy's family restores the reserve if and only if that family is the spread family |
| `Executor.FillWithinLimit` | bots/paint/src/executor.rs:558-652 | a fill is at most the limit price, at most the order's size, at least the minimum bet, due, and in the current window |
| `Executor.FillsExactly` | bots/paint/src/executor.rs:1111-1142 | an order fills if and only if it is due, in the current window, against a fresh, positive, affordable, on-tick ask that leaves enough size; deferral and the missing window are characterised likewise |
| `Executor.FirstIndex` | bots/paint/src/executor.rs:1092-1108 | the signal picked for a side is the first of that side, and none is picked only if there is none |
| `RunInvariants.CloseConserves` | bots/paint/src/backtest/runner.rs:174-187 | closing a market row by row keeps conservation and the active-bucket bound for the marked rows, and the committed total |
| `Sizing.ReserveSingleWithinCaps` | bots/paint/src/bankroll.rs:192-250 | a granted one-sided reservation is a whole token count within the per-trade caps, balance, sleeve and ceiling together, minimum-bet raise included; a refused one changes only the pause state |
| `Sizing.ReserveSpreadWithinCaps` | bots/paint/src/bankroll.rs:274-314 | the same for a two-sided reservation |
| `Sizing.BudgetWithinCaps` | bots/paint/src/bankroll.rs:756-773 | a positive budget lies below free balance, every per-trade cap and the family's remaining sleeve |
| `Sizing.TokensForSound` | bots/paint/src/bankroll.rs:225-245 | the token count is whole and affordable, and exceeds the sized notional only as the minimum-bet raise |
| `Sizing.TokensForMinBet` | bots/paint/src/bankroll.rs:231-245 | a size that still misses the minimum bet was left so because the raise would break a cap |
| `Sizing.KellyMeaning` | bots/paint/src/bankroll.rs:736-751 | the fraction is the scaled Kelly optimum (p - price) / (1 - price) when the win rate beats the price, and the floor otherwise |
| `Sizing.PositionFractionCapped` | bots/paint/src/bankroll.rs:709-732 | the stake never exceeds the family target, and confidence of one half or less stakes nothing |
| `Precheck.RequiredUnitsExact` | bots/paint/src/bankroll.rs:363-374 | a whole unit count passes the engine's size rules on both legs if and only if it reaches the precheck's required units |
| `Precheck.AcceptedExactly` | bots/paint/src/executor.rs:1145-1172 | a spread reservation yields units that pass the engine's size rules if and only if what is available covers the required notional |
| `Precheck.PairQueuedExactly` | bots/paint/src/executor.rs:339-402 | a pair is queued if and only if it has positive net edge, trading is allowed and the reservation passes; its legs carry the reserved units |
| `Precheck.RefusalSound` | bots/paint/src/bankroll.rs:337-399 | a pair judged not queueable is not queued by the submission |
| `Precheck.SpreadRefusalSound` | bots/paint/src/executor.rs:306-403 | a list of signals whose two legs are judged not queueable queues nothing |
| `Precheck.VerdictExact` | bots/paint/src/bankroll.rs:337-399 | a pair judged queueable is queued if and only if it has positive net edge, trading is allowed, and budget (without tolerance) and ceiling headroom cover the notional; its legs then carry at least the required units |
| `Fees.PowLipschitz` | bots/paint/src/fees.rs:84-90 | on the range of p(1 - p) every power changes by no more than its argument |
| `Fees.WeightedPowerSlope` | bots/paint/src/fees.rs:84-90 | price times a power of p(1 - p) falls by less than the price rises, for every exponent |
| `Fees.CostWithFeeIncreasing` | bots/paint/src/fees.rs:84-90 | price plus fee is strictly increasing in price for every exponent and every rate up to 1 |
| `Fees.CostWithFeeNotIncreasing` | bots/paint/src/fees.rs:84-90 | over all prices, rate 1 is the bound for that at exponent 1: above it two prices break it |
| `Fees.FeeNonNegative` | bots/paint/src/fees.rs:84-90 | no price, size or parameters give a negative fee |
| `Fees.NetEdgeLinear` | bots/paint/src/fees.rs:104-118 | net edge is linear in shares |
| `Fees.NetEdgeImproves` | bots/paint/src/fees.rs:104-118 | cheaper fills on either leg never lower the edge |
| `Fees.LowRatePays` | bots/paint/src/fees.rs:84-118 | at rates up to 1, a pair quoted with positive edge and filled in equal size at or below its quotes has positive P&L after fees for both outcomes |
| `FeeSlope.WeightedTangent` | bots/paint/src/fees.rs:84-90 | the fee per share lies within (2n + 1) times the squared step of its tangent, for every exponent n |
| `LockedEdge.NeverSteepIncreasing` | bots/paint/src/fees.rs:84-90 | if the fee nowhere falls faster than the price rises, price plus fee never falls |
| `LockedEdge.LockedProfit` | bots/paint/src/fees.rs:84-118 | for every safe fee, a pair quoted with positive edge and filled in equal size at or below its quotes has positive P&L after fees for both outcomes |
| `LockedEdge.UnsafeFeeLoses` | bots/paint/src/fees.rs:84-118 | for every other fee a quote with positive edge and a cheaper fill of one leg are given that never pay |
| `LockedEdge.LocksExactly` | bots/paint/src/fees.rs:84-118 | profit is locked in for all quotes, fills, sizes and outcomes if and only if the fee is safe: no fee, exponent at most 1, or nowhere steeper than 1 |
| `LockedEdge.LowRateSafe` | bots/paint/src/fees.rs:69-81 | every rate up to 1 is safe at every exponent |
| `SquareFee.SquareExactly` | bots/paint/src/fees.rs:69-81 | at exponent 2 a rate is safe if and only if 9 r <= 500 and (500 - 9 r)^2 >= 3456 r^2 |
| `Fees.ResolvedRateBounded` | bots/paint/src/fees.rs:20-81 | the resolved rate is at most 1 whenever the configured and the scheduled rate are |
| `Reserves.ReleaseExact` | bots/paint/src/bankroll.rs:920-934 | a covered release frees exactly the amount, active before pending, and touches no other family |
| `Reserves.ReleaseGeneral` | bots/paint/src/bankroll.rs:920-972 | any release frees the smaller of the amount and what the family holds |
| `Reserves.TransitionKeepsTotals` | bots/paint/src/bankroll.rs:890-904 | moving reserve to pending changes no family total and no other family's active bucket |
| `Reserves.ReleaseAnyExact` | bots/paint/src/bankroll.rs:907-917 | a family-less release frees exactly the smaller of the amount and the total |
| `Reserves.ReleaseAnyActiveFirst` | bots/paint/src/bankroll.rs:975-993 | it touches pending reserve only once no family has active reserve left |
| `Bankroll.RecentIsWindow` | bots/paint/src/bankroll.rs:442-448 | the rolling result list is exactly the last window of results |
| `Bankroll.TalliesCount` | bots/paint/src/bankroll.rs:432-440 | the per-strategy tallies count every recorded result |
| `Drawdown.ComputeMaxDrawdown` | agent/src/db_reader.rs:1337-1358 | the loop returns the largest drop from the running maximum over the log, zero at least |
| `Drawdown.MaxDrawdownIsPeak` | agent/src/db_reader.rs:1347-1357 | the fold is an upper bound of every entry's drawdown and is attained |
| `Drawdown.OpenAgrees` | bots/paint/src/bankroll.rs:101-123 | a fresh bot and the agent agree on the one-entry log |
| `Drawdown.MoveAgrees` | bots/paint/src/bankroll.rs:450-465 | each logged balance change keeps them in exact agreement |
| `Drawdown.ReopenBelow` | bots/paint/src/bankroll.rs:101-123 | a restart from the last logged balance lands at or below the agent |
| `Drawdown.MoveBelow` | bots/paint/src/bankroll.rs:597-612 | each change to a non-negative balance keeps it there |
| `Drawdown.RatioOrder` | bots/paint/src/bankroll.rs:651-656 | the bot's lower mark reads no deeper if and only if the balance is non-negative or the marks are equal |
| `Drawdown.MoveKeepsMark` | bots/paint/src/bankroll.rs:450-465 | with a shared high-water mark the bound survives every later balance, negative ones included |
| `Drawdown.LowMarkBreaks` | bots/paint/src/bankroll.rs:450-465 | with a positive mark below the log's, one further move breaks it, however deep the log already reads |
| `DrawdownPause.CheckKeepsValid` | bots/paint/src/bankroll.rs:527-563 | a disarmed pause is never running |
| `DrawdownPause.ReachableValid` | bots/paint/src/bankroll.rs:527-563 | the same after any sequence of calls |
| `DrawdownPause.CheckIdempotent` | bots/paint/src/bankroll.rs:527-563 | repeating the call at one instant gives the same answer and state |
| `DrawdownPause.NoSecondPause` | bots/paint/src/bankroll.rs:527-563 | after a pause has run out no call is pause-blocked until drawdown falls below the recovery threshold |
| `DrawdownPause.SteadyPauseLength` | bots/paint/src/bankroll.rs:527-563 | a steady in-range drawdown blocks exactly the calls within the pause length of the first |
| `DrawdownPause.NegativeRecoveryNeverEnds` | bots/paint/src/bankroll.rs:527-563 | in the re-arming band every call is blocked, from any state |
| `DrawdownPause.SteadyPauseExact` | bots/paint/src/bankroll.rs:527-563 | the pause has its configured length if and only if the drawdown is not in that band |
| `CircuitBreaker.Breaker.constructor` | bots/paint/src/circuit_breaker.rs:18-26 | a new breaker matches the empty history |
| `CircuitBreaker.Breaker.RecordResult` | bots/paint/src/circuit_breaker.rs:34-44 | after any results the counter is the trailing loss run modulo max(limit, 1) and the deadline is that of the latest completed streak |
| `CircuitBreaker.Breaker.PausedExactly` | bots/paint/src/circuit_breaker.rs:47-54 | trading is blocked exactly within the pause length after the latest completed streak |
| `CircuitBreaker.OpenRunGrows` | bots/paint/src/circuit_breaker.rs:34-44 | the incremental counter update computes the modular run |
| `CircuitBreaker.DeadlineGrows` | bots/paint/src/circuit_breaker.rs:34-44 | the deadline moves exactly when a result completes a streak |
| `SignalGroups.GetSignalGroups` | agent/src/db_reader.rs:514-589 | the loop with its early exit returns the first `limit` groups of the split into maximal runs, with counts, end ids and time bounds of each run |
| `SignalGroups.SplitIsSplit` | agent/src/db_reader.rs:514-589 | the split concatenates to the input, chains within runs and breaks between them |
| `SignalGroups.SplitUnique` | agent/src/db_reader.rs:514-589 | it is the only such split |
| `SignalGroups.SplitGrows` | agent/src/db_reader.rs:514-589 | reading on never changes a run that has ended |
| `SignalGroups.CutShort` | agent/src/db_reader.rs:514-589 | stopping at the limit returns the same groups as reading everything |
| `SignalGroups.BoundsAreExtremes` | agent/src/db_reader.rs:75-101 | on a newest-first list start and end are the extremes of each group |
| `Settings.ModeMeansFraction` | bots/paint/src/config.rs:214-244 | each named mode stands for exactly one kind of triple, whatever the order of the tests, and the triple is kept as given |
| `BankrollManager.ConsistentNotOverridden` | bots/paint/src/bankroll.rs:996-1022 | the manual-override branches are unreachable while totals, family buckets and mirrors agree |
| `BankrollManager.Manager.constructor` | bots/paint/src/bankroll.rs:117-140 | a new manager is consistent and opens at the given balance |
| `BankrollManager.Manager.SyncRawReservedTotals` | bots/paint/src/bankroll.rs:1025-1048 | the mirrors become active plus pending, globally and per family |
| `BankrollManager.Manager.AddReserved` | bots/paint/src/bankroll.rs:783-790 | globals, family buckets and mirrors stay consistent and the family's active bucket grows by the amount |
| `BankrollManager.Manager.ConsumeFamilyActive` | bots/paint/src/bankroll.rs:937-951 | takes the smaller of amount and bucket from family and global total alike |
| `BankrollManager.Manager.ConsumeFamilyPending` | bots/paint/src/bankroll.rs:954-972 | the same for the pending bucket |
| `BankrollManager.Manager.ReleaseReservedForFamily` | bots/paint/src/bankroll.rs:920-934 | stays consistent and releases as specified |
| `BankrollManager.Manager.ConsumeAcrossFamilies` | bots/paint/src/bankroll.rs:975-993 | the loop drains the families in order and returns the unmet amount |
| `BankrollManager.Manager.ReleaseReserved` | bots/paint/src/bankroll.rs:907-917 | stays consistent and drains all active buckets before pending ones |
| `BankrollManager.Manager.TransitionFamilyReserveToPending` | bots/paint/src/bankroll.rs:890-904 | stays consistent and moves active to pending |
| `BankrollManager.Manager.HydrateUnresolved` | bots/paint/src/bankroll.rs:793-816 | the loop over stored rows rebuilds the specified reserve |
| `BankrollManager.Manager.HydrateTradeReserve` | bots/paint/src/bankroll.rs:819-836 | one row goes to pending or active by its market's end |
| `BankrollManager.Manager.EffectiveReservedCapital` | bots/paint/src/bankroll.rs:839-847 | in a consistent state equals the policy-weighted reserve of the buckets |
| `BankrollManager.Manager.EffectiveReservedForFamily` | bots/paint/src/bankroll.rs:865-887 | the same for one family |
| `BankrollManager.Manager.OpenExposureHeadroom` | bots/paint/src/bankroll.rs:854-862 | in a consistent state equals the ceiling less raw committed exposure, zero at least |
| `BankrollManager.Manager.AvailableBudget` | bots/paint/src/bankroll.rs:756-773 | equals the specified budget, computed through the override checks |
| `BankrollManager.Manager.AssessSpreadAffordability` | bots/paint/src/bankroll.rs:337-399 | equals the specified verdict |
| `BankrollManager.Manager.CanTrade` | bots/paint/src/bankroll.rs:527-563 | answers and updates the pause fields as the pause machine says, and changes nothing else |
| `BankrollManager.Manager.ReserveCapitalWithReservePrice` | bots/paint/src/bankroll.rs:192-250 | refines the one-sided reservation, staying consistent |
| `BankrollManager.Manager.TokensNow` | bots/paint/src/bankroll.rs:202-245 | the guard chain, floor and minimum-bet raise compute the specified token count |
| `BankrollManager.Manager.ReserveSpreadCapital` | bots/paint/src/bankroll.rs:274-314 | refines the two-sided reservation, staying consistent |
| `BankrollManager.Manager.UnitsNow` | bots/paint/src/bankroll.rs:285-304 | the guard chain and floor compute the specified balanced units |
| `BankrollManager.Manager.ReleaseReservedForStrategy` | bots/paint/src/bankroll.rs:622-629 | releases through the strategy's family |
| `BankrollManager.Manager.ApplyTradeResult` | bots/paint/src/bankroll.rs:472-524 | frees the cost, moves balance, marks and tallies as specified |
| `BankrollManager.Manager.RecordOutcome` | bots/paint/src/bankroll.rs:432-448 | updates tallies and the rolling list as specified |
| `BankrollManager.Manager.MoveBalance` | bots/paint/src/bankroll.rs:450-465 | updates balance, high-water mark and peak drawdown as specified |
| `BankrollManager.Manager.ApplySettlementCorrection` | bots/paint/src/bankroll.rs:571-613 | moves balance, fee total and win/loss counters, and nothing of the per-strategy history |
| `ExecutionEngine.PaperEngine.constructor` | bots/paint/src/executor.rs:187-194 | a new engine has an empty queue, zero statistics and group number 1 |
| `ExecutionEngine.PaperEngine.Submit` | bots/paint/src/executor.rs:552-555 | counts the order and, outside live trading, queues it last |
| `ExecutionEngine.PaperEngine.SubmitSingle` | bots/paint/src/executor.rs:216-285 | engine, bankroll and rows move as the submission specification says, including every rejection |
| `ExecutionEngine.PaperEngine.SubmitSpread` | bots/paint/src/executor.rs:306-403 | the same for a spread |
| `ExecutionEngine.PaperEngine.SubmitLegs` | bots/paint/src/executor.rs:339-448 | edge, reservation, size rules and queueing of one pair |
| `ExecutionEngine.PaperEngine.RejectOrder` | bots/paint/src/executor.rs:719-767 | releases the reserve and counts the miss before the outcome write that may fail |
| `ExecutionEngine.PaperEngine.FillDueOrder` | bots/paint/src/executor.rs:655-716 | releases the surplus and counts the fill before the two writes that may fail |
| `ExecutionEngine.PaperEngine.ProcessDueOrder` | bots/paint/src/executor.rs:558-652 | the chain of checks ends as the decision function says, with its effects |
| `ExecutionEngine.PaperEngine.ProcessDueOrders` | bots/paint/src/executor.rs:452-513 | the pop-and-requeue loop, with its early return on failure, refines the batch specification |
| `ExecutionEngine.PaperEngine.CountLegged` | bots/paint/src/executor.rs:505-510 | counts the groups with one of two legs filled in any iteration order |
| `ExecutionEngine.CloseMarketAndReclassify` | bots/paint/src/backtest/runner.rs:174-187 | the loop over the market's rows refines the market-close step |
| `ExecutionEngine.SettleTrade` | bots/paint/src/position_manager.rs:307-354 | refines the settlement step, with the balance logged |
| `ExecutionEngine.CorrectSettlement` | bots/paint/src/bankroll.rs:571-613 | refines the correction step, with the balance logged |
| `ExecutionEngine.RestartDesk` | bots/paint/src/bankroll.rs:101-113 | refines the restart step from the stored rows |
| `ExecutionEngine.RestartBankroll` | bots/paint/src/bankroll.rs:793-816 | opens at the logged balance with the reserve rebuilt |
| `UserStreamRuns.NoStrandedStream` | polymarket-sidecar/src/provider.ts:1549-1582 | in every run with safe timing and sockets that can be created, while markets are desired and the monitor is open there is exactly one of a current attempt and a scheduled reconnect |
| `UserStreamRuns.ConnectedMeansSubscribed` | polymarket-sidecar/src/provider.ts:1298-1348 | in every run, connected implies ok status and the current attempt's markets subscribed and desired; a loop that ended with an attempt in place is connected; failures count exactly those since the last success |
| `UserStreamRuns.StaleEventsInert` | polymarket-sidecar/src/provider.ts:1603-1619 | in every run, events of a superseded attempt change nothing but that socket's own opened flag, and none of its timers can fire |
| `UserStreamRuns.ClosedForGood` | polymarket-sidecar/src/provider.ts:1285-1296 | in every run, after close nothing leaves the closed phase, sets a timer or opens a socket |
| `UserStreamRuns.RunKeeps` | polymarket-sidecar/src/provider.ts:1247-1619 | the monitor invariant survives every run, and so does not being stranded when sockets can be created |
| `UserStreamRuns.UnsafeTimingSticks` | polymarket-sidecar/src/provider.ts:1511-1547 | for every timing that is not safe there is a run, with all sockets created, that ends stuck |
| `UserStreamRuns.StuckForever` | polymarket-sidecar/src/provider.ts:1549-1574 | from a stuck state no event but close ever opens a socket or schedules a reconnect |
| `UserStreamRuns.ThrowingSocketStrands` | polymarket-sidecar/src/provider.ts:1321-1348 | a throwing socket constructor during resubscription strands the stream with status ok, and asking again for the old markets does not help |
| `UserStreamRuns.ReconnectDelayBounds` | polymarket-sidecar/src/provider.ts:1156-1166 | the delay is a whole number of milliseconds, at least 1, within rounding of 80% to 120% of the backoff, which is the base after one failure, doubles with each further one and stops at the maximum |
| `UserStream.EveryStep` | polymarket-sidecar/src/provider.ts:1350-1582 | with safe timing each event keeps the invariant, strands the stream exactly when a socket constructor throws, and opens a socket exactly when the loop asks for one and gets it |
| `UserStream.FailureKeeps` | polymarket-sidecar/src/provider.ts:1471-1490 | a failing attempt ends the loop with a reconnect scheduled for the same markets |
| `UserStream.DisconnectKeeps` | polymarket-sidecar/src/provider.ts:1492-1509 | so does a lost connection |
| `UserStream.OpenKeeps` | polymarket-sidecar/src/provider.ts:1321-1348 | opening replaces the old attempt, and a new one is current exactly when the socket was created |
| `UserStream.SuccessKeeps` | polymarket-sidecar/src/provider.ts:1298-1319 | a success ends the loop on the desired markets, or replaces the attempt at once when they have changed |
| `UserStream.HeartbeatDecided` | polymarket-sidecar/src/provider.ts:1511-1547 | with safe timing a heartbeat only meets a decided attempt |
| `UserStreamAlways.StepBase` | polymarket-sidecar/src/provider.ts:1350-1582 | every event keeps the base invariant under any timing and with sockets that may fail to be created: superseded attempts have no timers and are decided or still awaited, the current one is awaited or connected to what is desired |
| `UserStreamAlways.StepPromised` | polymarket-sidecar/src/provider.ts:1350-1582 | after every event connected means subscribed, closed is final, stale events were inert, and with safe timing the stream is stranded only by a throwing socket constructor |
| `MarketLists.NormalizedSorts` | polymarket-sidecar/src/provider.ts:495-497 | dropping duplicates and sorting keeps exactly the ids and orders them strictly |
| `MarketLists.SortedUnique` | polymarket-sidecar/src/provider.ts:1151-1154 | two such arrays are equal if and only if they hold the same ids |
| `MarketLists.ArraysEqual` | polymarket-sidecar/src/provider.ts:1151-1154 | the element-by-element loop decides equality, hence for sorted arrays equality of ids |
| `UserStreamMonitor.WsUserStreamMonitor.constructor` | polymarket-sidecar/src/provider.ts:1222-1245 | a new monitor is idle and valid |
| `UserStreamMonitor.WsUserStreamMonitor.ValidMeansSubscribed` | polymarket-sidecar/src/provider.ts:1298-1319 | a valid object that reads connected is ok, has a current attempt, and its subscribed, desired and attempted arrays are equal |
| `UserStreamMonitor.WsUserStreamMonitor.ConnectLoop` | polymarket-sidecar/src/provider.ts:1298-1319 | the while loop, entered afresh or resumed after its await, ends or suspends in the state the loop specification gives |
| `UserStreamMonitor.WsUserStreamMonitor.EnsureConnected` | polymarket-sidecar/src/provider.ts:1247-1275 | refused exactly without markets or after close; otherwise the wish is the set asked for, at most one loop runs, and the object keeps every promise of an event |
| `UserStreamMonitor.WsUserStreamMonitor.CloseMonitor` | polymarket-sidecar/src/provider.ts:1285-1296 | closed, not ok, no wish, no timer, no attempt, no new socket, and every promise of an event kept |
| `UserStreamMonitor.WsUserStreamMonitor.SocketOpened` | polymarket-sidecar/src/provider.ts:1390-1415 | takes the open step on the shared attempt object and keeps every promise of an event, stale opens included |
| `UserStreamMonitor.WsUserStreamMonitor.SocketMessage` | polymarket-sidecar/src/provider.ts:1417-1444 | the same for messages: an undecided attempt succeeds or fails once, and the loop resumes |
| `UserStreamMonitor.WsUserStreamMonitor.SocketEnded` | polymarket-sidecar/src/provider.ts:1446-1467 | the same for errors and ends of a socket |
| `UserStreamMonitor.WsUserStreamMonitor.HeartbeatFires` | polymarket-sidecar/src/provider.ts:1515-1546 | the same for the heartbeat, with its staleness test |
| `UserStreamMonitor.WsUserStreamMonitor.ReconnectTimerFires` | polymarket-sidecar/src/provider.ts:1563-1574 | the same for the reconnect timer, which starts a loop only if none is running |
| `UserStreamMonitor.WsUserStreamMonitor.ConnectTimerFires` | polymarket-sidecar/src/provider.ts:1384-1388 | the same for the connect timeout |
| `UserStreamMonitor.WsUserStreamMonitor.ReadyTimerFires` | polymarket-sidecar/src/provider.ts:1412-1414 | the same for the ready timer |
| `OrderIntents.AtMostOnePost` | polymarket-sidecar/src/provider.ts:2346-2539 | over any run in which calls for one client id do not overlap, each id reaches the venue at most once |
| `OrderIntents.OverlapPostsTwice` | polymarket-sidecar/src/provider.ts:2346-2539 | whenever a call for an id is in flight, posted or not, an overlapping call for the same id can bring its posts to two |
| `OrderIntents.StepKeeps` | polymarket-sidecar/src/provider.ts:2346-2539 | every non-overlapping step keeps ids in flight distinct and uncached, and posts bounded by what is cached or in flight |

## Left out

- Floating-point rounding: prices, sizes and balances are exact reals; the 1e-9 tolerances are kept where the code tests them.
- 64-bit overflow: timestamps are unbounded naturals (saturating adds keep their saturation).
- `live_trading` order routing: the runs exclude that mode, in which orders are counted but not queued; the other two modes are covered.
- Storage: rows are sequences without SQL; a failing write is modelled before a submission and at each order of a batch, not for balance-log and close-trade writes.
- Market rows: a market id names one window throughout a run, and time does not run backwards between events.
- Strategy names: a name is `Known(family)` or `Unlisted(name)`; the table that maps strings to families is represented by these cases, with unlisted names falling back to the latency family as in the code.
- `Theorems.Solvency`: covers runs without settlement corrections, since a correction moves the balance by an arbitrary amount.
- `Theorems.DrawdownAfterRestart`: restricted to a balance that stayed non-negative since the restart; `RestartBound.RestartBoundExactly` gives the exact condition without that restriction.
- `ExecutionEngine.SettleTrade`: takes the close-trade write to succeed; the code ignores its failure, after which the row stays open while its reserve is gone.
- `LockedEdge.LocksExactly`: above exponent 2 the bound on the rate is stated as a condition on the fee's slope at every price, not solved for the rate.
- `OrderIntents.AtMostOnePost`: abstracts validation, signing and venue answers to the steps between awaits, on values rather than as an object.
- Settlement fees use the fee parameters of the window's end; the live-decision path, which uses the current time instead, is not part of this model.
- `total_fees` and Kelly statistics after a correction: modelled as the code moves them, with no law claimed.
- Fee-schedule documents are taken as parsed optional fields; JSON parsing is not modelled.
- Telemetry: token ids, fidelity notes, signal metrics, log rate limiting, the recent-events buffer and group id strings.
- The position manager's opening path, the strategies, the portfolio, the rest of the backtest runner, the process manager, the API tables, configuration parsing, the CLI and the dashboard: easy members or I/O.
- The rest of the sidecar provider: authentication, HTTP, discovery, relayer and on-chain reads.
