# GoldFlow verification

A Dafny model of the parts of the GoldFlow trading engine whose correctness is hard to see from the code, with proofs
about every input, every run or every reachable state. `dafny verify dfyconfig.toml` checks all of it.

## What is modelled

- **Order execution.** `Execution.dfy` gives one `execute` or `reconcile_unknown` call as atomic steps over the shared
  idempotency store and broker, one per store or broker call. `Interleaving.dfy` runs any number of such calls with crashes
  and proves that sending at most once follows from the atomic claim alone. `Serialized.dfy`, `Exposure.dfy` and `Coverage.dfy` add
  what holds when calls do not overlap. `Recovery.dfy` shows that an order whose reply was lost is found again. `Calls.dfy` and
  `Executor.dfy` are the imperative executor, proved to perform exactly those steps, call after call. `Witnesses.dfy`, over
  the names in `GoldSymbols.dfy`, holds concrete runs that show where guarantees end.
- **The mock broker, symbols, gates, sizing, stores and state machine** it works with: `MockBroker.dfy`, `Symbols.dfy`,
  `Gates.dfy`, `Sizing.dfy`, `Idempotency.dfy`, `StateMachine.dfy`.
- **Circuit breaker.** `CircuitBreaker.dfy` is the breaker over the in-memory store, `CircuitLog.dfy` the append-only store
  and its refinement, `CircuitRuns.dfy` many interleaved workers over the map, `CircuitDurable.dfy` the same over the log.
- **Market structure and backtesting.** `Candles.dfy`, `Structure.dfy`, `Backtest.dfy`, `BacktestLaws.dfy`,
  `TradeAccounts.dfy`, `Metrics.dfy`, and `Returns.dfy`, which ties the metrics to a backtest's own trades.
- **Recovery and position management.** `Reconciliation.dfy`, `Positions.dfy`, `PositionRuns.dfy`, and `PositionRaces.dfy` for
  calls that overlap.
- **Small protocols.** `Lease.dfy` and `RateLimiter.dfy`.

Prices, volumes and money are reals; time is an integer number of microseconds (milliseconds for the lease, real seconds for
the limiter). Clocks, connectivity, ticks, the account and the circuit breaker's answer to the executor are parameters that
may differ at every call. In the executor the resolver, the execution-permission rules and the hashed correlation key are
arbitrary functions. Python dictionaries are maps, or sequences where their order is visible.

Some properties one might expect are false of the code. Each has a failing input and its exact condition:

- a worker with a lagging clock ends a daily lock within its day (`CircuitRuns.LaggingClockUnlocks`, `DailyLockedIff`);
- below zero the running peak can miss the worst fractional loss (`Metrics.FractionMissedBelowZero`, `FractionIsLargestIff`);
- period returns do not compound to the balance past a period that starts from zero (`Metrics.RecoveredBustCompoundsToZero`,
  `ReturnsCompoundToBalance`), which never happens in a backtest (`Returns.BacktestReturnsCompound`);
- a ledger entry filed under the other kind's status is never mirrored (`Reconciliation.MisfiledIsNotMirrored`,
  `MirrorsIffWellFiled`);
- a signal under an alias of an instrument can enter beside a position on it (`Witnesses.AliasEntersBeside`,
  `Coverage.CoverIsExact`);
- overlapping trailing calls can loosen a stop (`PositionRaces.OverlappingTrailsLoosen`, `RatchetsIff`);
- two accounts whose truncated hashes collide share a durable circuit state (`CircuitLog.CollisionLeaks`,
  `RefinesIffTellsApart`).

## Model

| member | source | states |
|---|---|---|
| `Interleaving.AtMostOneSend` | app/execution/executor.py:172-266 | for every interleaving of any number of calls over one store, with crashes at any step, lost replies and repeats, no key reaches the broker's place operation twice, and the broker's own send counter equals the number of distinct keys sent |
| `Interleaving.AcceptedNeverRejected` | app/execution/executor.py:257-320 | in every such run a key the broker accepted was sent, has a record, and that record never says claimed or rejected |
| `Interleaving.RecordsOnlyMoveForward` | app/execution/idempotency.py:81-128 | over every run a record keeps its request and claim time, its version fits its status and never passes 4, and a final status never changes |
| `Interleaving.SubmitNeverRefused` | app/execution/executor.py:257-260 | even among other processes the owner of a claim is never refused the mark that precedes its send |
| `Interleaving.EveryProcessEnds` | app/execution/executor.py:94-375 | every step of a call strictly reduces a bound of 13 plus the visibility attempts, so no call runs for ever |
| `Interleaving.RunOk` | app/execution/executor.py:94-559 | the invariant behind these holds in every reachable system: claims are owned by one process, sent keys are recorded past their claim, accepted keys are not rejected |
| `Serialized.NeverRefused` | app/execution/executor.py:88-92 | when calls are serialized no idempotency update and no trade-state transition is ever refused |
| `Serialized.AnswerAgreesWithRecord` | app/execution/executor.py:237-375 | the answer a call returns with its last update has the status, request, report and reconciliation flag of the record that update wrote; only a failed order check is told apart |
| `Serialized.RecordedKeyIsReplayed` | app/execution/executor.py:154-174 | executing a recorded key changes nothing: the call stops before the lookup, or returns what the record says |
| `Serialized.MarkFits` | app/execution/executor.py:437-468 | the last update is allowed by the table, its transition by the state machine, and the outcome agrees with the new record |
| `Serialized.SettledFits` | app/execution/executor.py:328-358 | whatever protection decides, the update and the transition that follow are allowed |
| `Exposure.EntryBounded` | app/execution/executor.py:176-266 | over every serialized run of any signals, with crashes and accepted-but-lost replies, the positions plus pending orders under a set of names never exceed the larger of one and the initial count by more than the market entered itself, if each call that resolves to one of the names watches for all of them |
| `Coverage.CoverIsExact` | app/execution/executor.py:198-221 | for a call that enters alone, with room for two positions, entries under a set of names stay single beside every position under them if and only if the call watches for all the names |
| `Coverage.UncoveredEntersBeside` | app/execution/executor.py:198-221 | such a call enters beside a position under any name it does not watch for, in a serialized run in which the market does nothing |
| `Symbols.ResolveExact` | app/brokers/symbols.py:20-73 | a text resolves to a symbol exactly when that symbol is tradeable and outranks every other tradeable one; none, a tie or an empty text is an error |
| `Exposure.PositionsBounded` | app/risk/gates.py:100-101 | over every serialized run open positions never exceed the larger of the configured maximum and the initial count by more than the market itself opened |
| `Exposure.AcceptedMeansClear` | app/risk/gates.py:100-112 | an order the gates accept was decided on reads that hold nothing under any watched name, the resolved one included, and fewer positions than the maximum |
| `Exposure.PlacedAddsOne` | app/brokers/mock.py:323-400 | a send adds at most one position or order, whatever becomes of its reply |
| `Witnesses.FillBetweenReadsEntersTwice` | app/execution/executor.py:176-179 | a concrete serialized run in which a fill between the two reads leaves two entries, so what the market does has to be counted |
| `Witnesses.AliasEntersBeside` | app/execution/executor.py:198-207 | a concrete serialized run, with the market still, in which the signal text GOLD resolves to XAUUSD, watches for neither listed name but that, and enters beside a position on XAUUSDm |
| `Witnesses.OvertakenCallIsRefused` | app/execution/executor.py:350-356 | a concrete run in which a concurrent reconciliation settles the record first and the call's own last update is refused, so serialization is needed |
| `Recovery.LostReplyIsRecovered` | app/execution/executor.py:257-302 | in every serialized run, when the broker accepts an order and the reply is lost, and the call then crashes or marks the result unknown, the key was sent once and one reconciliation of at most six steps over a reachable broker resolves it |
| `Recovery.BookedOrderIsResolved` | app/execution/executor.py:470-559 | a record whose own position or pending order is at the broker ends as a success without a send: its own position carries exactly the requested stop and last target, or its own order is pending |
| `Calls.CallIsARun` | app/execution/executor.py:88-92 | a call made while no other is in flight extends a serialized run by exactly the world and the answer its own steps reach |
| `Executor.Serve` | app/execution/executor.py:88-569 | any list of execute, reconcile and cancel calls, with the market moving between them, is one serialized run: no key is sent twice, every accepted key has a record that is neither claimed nor rejected, and open positions pass the limit only by what the market opened |
| `Executor.TradeExecutor.Execute` | app/execution/executor.py:88-375 | its effects and answer extend the executor's serialized run by the protocol's steps; nothing is refused; a first answer of filled means the order's own position is guarded, and one of safely closed that it was held and is gone |
| `Executor.TradeExecutor.FindFill` | app/execution/executor.py:384-409 | looks at most the configured number of times; the ticket is the reported one or that of a visible fill on the order's symbol, and a fill found protected is that one with exactly the requested stop and last target |
| `Executor.TradeExecutor.RepairOrClose` | app/execution/executor.py:411-429 | at most one modification and one close; repaired means the order's own ticket is guarded, safely closed that it was held and is gone |
| `Executor.TradeExecutor.VerifyOrRepairProtection` | app/execution/executor.py:377-429 | the ticket settled on is the reported one or a visible fill's; protected means that very position carries exactly the requested stop and last target, safely closed that it was held before and is gone, with at most one modify, one close and a bounded number of reads |
| `Executor.TradeExecutor.ReconcileUnknown` | app/execution/executor.py:470-559 | callable after any calls; extends the run by the reconciliation steps and never sends; a record settled as a success has its own position guarded or its own order pending, one settled as safely closed had its own position, which is gone |
| `Executor.TradeExecutor.CancelPendingEntries` | app/execution/executor.py:561-569 | on success every pending order is cancelled and reported in order; on failure a suffix remains; positions are never touched |
| `Idempotency.InMemoryIdempotencyStore.Claim` | app/execution/idempotency.py:61-75 | the first claim of a key creates its record, every later one returns that record unchanged |
| `Idempotency.InMemoryIdempotencyStore.Update` | app/execution/idempotency.py:81-128 | moves a record along the table; an unknown key or any other move is refused and changes nothing |
| `Idempotency.UpdateKeeps` | app/execution/idempotency.py:94-127 | an update keeps every version bound and every record's history |
| `StateMachine.TradeStateMachine.Transition` | app/domain/state_machine.py:83-90 | moves along an allowed edge for a stated reason, otherwise refuses and stays |
| `StateMachine.EachStateOnce` | app/domain/state_machine.py:11-59 | no lifecycle returns to a state except closing and error |
| `StateMachine.OpenOnlyAfterFill` | app/domain/state_machine.py:30-40 | a lifecycle shows an open position at most once and only directly after a confirmed fill |
| `StateMachine.TerminalIffNoExit` | app/domain/state_machine.py:55-58 | a state has no exit exactly when it is closed, stopped out, expired or cancelled |
| `MockBroker.Broker.Place` | app/brokers/mock.py:323-400 | replays, loses before or after acceptance, refuses or accepts exactly as scripted, booking one position or order under the next ticket |
| `MockBroker.AcceptedIffAcceptable` | app/brokers/mock.py:276-317 | an order passes the check exactly when venue, volume range and grid, protection side and distance, and margin all allow it |
| `MockBroker.Broker.ModifyPosition` | app/brokers/mock.py:414-427 | changes the stop and target of one ticket, or refuses |
| `MockBroker.Broker.ClosePosition` | app/brokers/mock.py:429-461 | closes part or all of one ticket, or reports that it is missing |
| `MockBroker.FindAfterPut` | app/brokers/mock.py:414-427 | after an assignment a ticket reads as the new value and every other ticket as before |
| `MockBroker.FindAfterWithout` | app/brokers/mock.py:429-447 | after a removal the ticket is gone and every other reads as before |
| `Gates.Validate` | app/risk/gates.py:22-142 | collects the reasons in order without repetition and accepts exactly the orders that break no rule |
| `Gates.AcceptedIffPasses` | app/risk/gates.py:37-142 | acceptance is equivalent to the conjunction of all venue, price, protection, funding, exposure and loss rules |
| `Gates.GoldLimitImpliedByDuplicate` | app/risk/gates.py:102-107 | whenever the gold limit fires the duplicate rule fires too, so the limit never decides |
| `Gates.Dedupe` | app/risk/gates.py:134-134 | keeps the first occurrence of each reason |
| `Sizing.SizingExact` | app/risk/calculator.py:17-80 | with valid inputs sizing succeeds exactly when the minimum lot's loss fits the budget; the volume is the greatest on the grid within budget and maximum, its risk is within budget, it passes the broker's volume check, and no other rejection is reachable |
| `Sizing.GridFloor` | app/risk/calculator.py:51-61 | rounding down finds the greatest grid volume not above the cap |
| `Sizing.ProfitIsLoss` | app/brokers/mock.py:255-268 | the broker's profit at the stop is, in size, volume times the loss of one lot |
| `CircuitRuns.NoLostUpdates` | app/risk/circuit_breaker.py:94-197 | in every interleaving with crashes each account's commits form one chain of operations, each applied to the one before, and the store holds the last |
| `CircuitRuns.LocksAgree` | app/risk/circuit_breaker.py:124-197 | account_locked equals manual_reenable_required in every committed state |
| `CircuitRuns.LatchesHold` | app/risk/circuit_breaker.py:124-197 | only a manual reset unlocks an account and only one told to clears the kill switch |
| `CircuitRuns.LatchesSurvive` | app/risk/circuit_breaker.py:124-197 | both latches outlive everything else over any stretch of commits |
| `CircuitRuns.DailyLockSurvives` | app/risk/circuit_breaker.py:94-122 | while periods never go back a daily lock lasts its day unless reset |
| `CircuitRuns.WeeklyLockSurvives` | app/risk/circuit_breaker.py:94-122 | while periods never go back a weekly lock lasts its week unless reset |
| `CircuitRuns.DailyLockedIff` | app/risk/circuit_breaker.py:94-197 | a committed state is locked for the day if and only if some evaluation up to it reached the daily limit and from that one on nothing was reset and every commit was made on that day |
| `CircuitRuns.WeeklyLockedIff` | app/risk/circuit_breaker.py:94-197 | the same for the week and the weekly limit |
| `CircuitRuns.StoredLocksExact` | app/risk/circuit_breaker.py:61-69 | in every interleaving the stored locks are exactly those that the committed evaluations, periods and resets give |
| `CircuitRuns.LaggingClockUnlocks` | app/risk/circuit_breaker.py:94-122 | a concrete run in which a worker with a lagging clock ends a daily lock within its own day |
| `CircuitRuns.StoredLocksAgree` | app/risk/circuit_breaker.py:61-69 | in every reachable system the stored state is the last commit and agrees on its lock |
| `CircuitBreaker.InMemoryCircuitStore.Save` | app/risk/circuit_breaker.py:61-69 | compare-and-swap: stores the next version or reports a conflict and changes nothing |
| `CircuitBreaker.Breaker.Get` | app/risk/circuit_breaker.py:94-122 | returns the state of the current period: a new one unsaved, a stored one as it is, or a rolled-over one saved |
| `CircuitBreaker.Breaker.EvaluateAccount` | app/risk/circuit_breaker.py:124-164 | latches every lock whose limit is reached and unlatches none |
| `CircuitBreaker.Breaker.ActivateKillSwitch` | app/risk/circuit_breaker.py:166-174 | sets the kill switch on the current state and keeps every lock |
| `CircuitBreaker.Breaker.ManualReset` | app/risk/circuit_breaker.py:176-197 | refused without authorization before the store is touched; otherwise clears the locks, and the kill switch only on request |
| `CircuitBreaker.WeekStartExact` | app/risk/circuit_breaker.py:15-17 | a week starts on its reset weekday, and two days share a week exactly when no reset weekday lies between |
| `CircuitBreaker.PeriodsFollowClock` | app/risk/circuit_breaker.py:90-92 | a clock that does not go back never yields an earlier period |
| `CircuitLog.LogRefinesMap` | app/workers/persistence.py:146-189 | however writers interleave version checks and inserts, for the accounts that a run writes to the append-only log behaves as the compare-and-swap map and versions stay 1..n, if the type tells those accounts apart and versions fit the padded width |
| `CircuitLog.RefinesIffTellsApart` | app/workers/persistence.py:186-189 | over some accounts the log behaves as the map in every run if and only if no two of them share a type |
| `CircuitLog.CollisionLeaks` | app/workers/persistence.py:186-189 | when two accounts share a type, saving for one makes the other load a state that nobody saved for it |
| `CircuitLog.InsertRefines` | app/workers/persistence.py:164-184 | an insert succeeds exactly while its expected version is current, with the map's effect and result |
| `CircuitLog.CheckRefines` | app/workers/persistence.py:159-163 | a failed version check is a conflict of the map at that instant |
| `CircuitLog.NewestIsLast` | app/workers/persistence.py:148-154 | ordering by padded text finds the numerically newest row while versions fit the width |
| `CircuitLog.TakenIffReached` | app/workers/persistence.py:176-184 | the unique key refuses a version exactly when the log already reaches it |
| `CircuitLog.SqlCircuitStore.Save` | app/workers/persistence.py:159-184 | undisturbed between its transactions, a save is the map's compare-and-swap and keeps the table in step with the map |
| `CircuitDurable.DurableRefines` | app/workers/persistence.py:146-184 | workers that save by version check and insert, in any interleaving with crashes, run as workers over the map, seen at their inserts and failed checks |
| `CircuitDurable.DurableLocksExact` | app/risk/circuit_breaker.py:94-197 | so what an account loads from the log is the last of one chain of commits, and its locks are exactly those that the committed evaluations, periods and resets give |
| `Text.PaddedOrderIffFits` | app/workers/persistence.py:169-169 | text order of zero-padded numbers agrees with numeric order exactly when they fit the width |
| `Text.DecimalRoundTrip` | app/workers/persistence.py:169-169 | parsing a printed number gives it back |
| `Structure.SwingsNeverRepaint` | app/market/structure.py:66-98 | cutting the history at any bar leaves exactly the swings confirmed before it |
| `Structure.BreaksNeverRepaint` | app/market/structure.py:122-177 | cutting the history at any bar leaves exactly the earlier breaks and the bias kept then |
| `Structure.BreaksMeetDefinition` | app/market/structure.py:122-177 | the one-pass scan reports exactly the first closes beyond each newest confirmed level |
| `Structure.BreaksExact` | app/market/structure.py:122-177 | a break is reported if and only if it is such a first close |
| `Structure.BreakUsesConfirmedSwing` | app/market/structure.py:134-176 | every break crosses the price of a swing already confirmed at its bar |
| `Structure.NoSwingBrokenTwice` | app/market/structure.py:146-176 | no swing is broken twice |
| `Structure.IncrementalBias` | app/market/structure.py:101-120 | the bias kept bar by bar ends as the bias of the whole swing list |
| `Structure.ConfirmedSwingsExact` | app/market/structure.py:66-98 | the list holds every dominating pivot with enough bars on both sides and nothing else |
| `Structure.ConfirmedSwingsOrdered` | app/market/structure.py:66-98 | swings come out in the order of their sort key, each confirmed the right span later |
| `Structure.SwingsApart` | app/market/structure.py:66-98 | two swings of one kind are further apart than the shorter span |
| `Structure.FindSwings` | app/market/structure.py:66-98 | the scan returns those swings and refuses bad spans and malformed sequences |
| `Structure.StructureBreaks` | app/market/structure.py:122-177 | the loop over bars computes the scan's events and bias |
| `Structure.AnalyzeStructure` | app/market/structure.py:180-203 | swings, first-close breaks, bias, newest support and resistance, and the four flags: each says exactly whether the newest swing of a kind lies above, or below, the one before it, and the bias is the pair of flags that agree |
| `BacktestLaws.NoLookAhead` | app/backtesting/engine.py:183-240 | for any strategy, data sets that agree on everything closed by bar i give the same engine state after bar i |
| `BacktestLaws.BacktestConserves` | app/backtesting/engine.py:183-266 | signals generated equal those expired plus trades plus one left open; final balance is the initial one plus all net results |
| `BacktestLaws.RunConserves` | app/backtesting/engine.py:183-240 | after every bar the counts balance, pending and position never coexist, and times do not go back |
| `BacktestLaws.EquityCurveIsRunningBalance` | app/backtesting/engine.py:183-266 | the equity curve is exactly the running balance with strictly increasing timestamps |
| `BacktestLaws.FillWithinBudget` | app/backtesting/engine.py:88-110 | planned risk stays within the budget up to the tolerance's share of a step, and the volume within its limits |
| `BacktestLaws.StopLosesPlannedRisk` | app/backtesting/engine.py:124-168 | a stop-out loses planned risk, exit cost and commissions, so its multiple is at most minus one |
| `TradeAccounts.EveryTradeExplained` | app/backtesting/engine.py:170-266 | every trade of every backtest is the whole life of one signal: the strategy gave it at the close of a bar to a flat account, the first later bar that could fill it did, before it lapsed, sized on the running balance, and the trade closed on the first bar that reached its stop or target or on which the strategy asked for an exit, or at the end of the data |
| `TradeAccounts.EveryTradeAccounted` | app/backtesting/engine.py:63-266 | every trade opens strictly after the bar that gave its signal; its raw fill is where that bar first trades inside the signal's own zone, its stop and target are the signal's, its planned risk is within the budget of the balance before it, its costs are exactly both price costs and both commissions, and a stop-out loses exactly planned risk, exit cost and commissions |
| `Backtest.Run` | app/backtesting/engine.py:170-266 | the run over cursors and windows computes the bar-by-bar outcome, or refuses the data |
| `Backtest.ValidateData` | app/backtesting/engine.py:40-58 | accepts exactly complete, single-symbol, well-formed data |
| `Backtest.AdvanceCursor` | app/backtesting/engine.py:214-220 | the window behind a cursor is the availability filter at that instant |
| `Backtest.NextWindows` | app/backtesting/engine.py:213-221 | all windows of a bar equal the simple filter, cut to the history length |
| `Candles.ValidateSequence` | app/market/candles.py:23-37 | accepts exactly homogeneous, strictly increasing sequences |
| `Candles.ClosedCandles` | app/market/candles.py:40-67 | selects in time order exactly the bars available at an instant |
| `Candles.LatestAvailableCandles` | app/market/candles.py:70-78 | the last bars available at an instant, at most the count |
| `Candles.AvailableIsPrefix` | app/market/candles.py:70-78 | when closed bars come first the available ones are that leading run |
| `Metrics.Streaks` | app/backtesting/metrics.py:16-29 | the longest runs of gains and of losses |
| `Metrics.Drawdown` | app/backtesting/metrics.py:32-43 | one pass computes the amount and fraction defined by the running peak |
| `Metrics.DrawdownIsLargestFall` | app/backtesting/metrics.py:32-43 | the amount is the largest fall from any point to a later one, and is attained |
| `Metrics.FractionIsLargestIff` | app/backtesting/metrics.py:32-43 | the reported fraction is the largest loss since any earlier positive point if and only if every point below zero is outdone: some point lost at least as much of its running peak as this one lost of the lowest positive equity before it |
| `Metrics.FractionIsLargest` | app/backtesting/metrics.py:32-43 | so it is on every curve that is never negative |
| `Metrics.FractionIsAttained` | app/backtesting/metrics.py:32-43 | the fraction is one that some point really lost |
| `Metrics.FractionMissedBelowZero` | app/backtesting/metrics.py:32-43 | a concrete curve going below zero on which the fraction misses the worst loss |
| `Metrics.PeriodTotals` | app/backtesting/metrics.py:57-61 | one row per period with that period's net result, in key order |
| `Metrics.PeriodsSumToTotal` | app/backtesting/metrics.py:57-61 | period results add up to the total result |
| `Metrics.PeriodReturns` | app/backtesting/metrics.py:64-73 | each period's return on the balance it starts from |
| `Metrics.ReturnsCompoundToBalance` | app/backtesting/metrics.py:64-73 | compounding the returns gives the final balance exactly when no period starts from zero or the account ends at zero |
| `Metrics.RecoveredBustCompoundsToZero` | app/backtesting/metrics.py:64-73 | a concrete table, losing everything and earning it back, whose returns compound to zero instead of the balance |
| `Metrics.NeverBusted` | app/backtesting/metrics.py:57-73 | with trades in period order, no period starts from a zero balance unless some trade does |
| `Returns.BacktestReturnsCompound` | app/backtesting/engine.py:253-266 | in every backtest, for period keys that follow time, the period returns compound from the initial balance to the final one: no trade is ever opened on a balance that is not positive |
| `Reconciliation.MirrorsIffWellFiled` | app/execution/reconciliation.py:134-206 | after a run the live tickets and values equal the broker's exactly when no broker ticket is filed under a status of the other kind |
| `Reconciliation.MisfiledIsNotMirrored` | app/execution/reconciliation.py:134-171 | a concrete ledger in which a held position is filed as a cancelled order, and stays so |
| `Reconciliation.ReconciliationService.Reconcile` | app/execution/reconciliation.py:109-215 | both tables become the reconciled ones with the incidents and counts in order; each mirrors the broker exactly when it was well filed, and with unique tickets every broker position is in the ledger as it is; an unhealthy or failing broker leaves the ledger untouched |
| `Reconciliation.ReconcileTwice` | app/execution/reconciliation.py:109-215 | of two reconciliations over an unchanged broker the second reports no incident and no count and changes nothing |
| `Reconciliation.OwnLedgerMirrors` | app/execution/reconciliation.py:134-206 | a ledger that starts empty and is written only by reconciliation mirrors, after every list of healthy runs, what the last one found, and holds exactly the tickets that any run found |
| `Reconciliation.SecondRunIsSilent` | app/execution/reconciliation.py:134-206 | a second pass over one table on the same broker state changes nothing, reports nothing and counts nothing |
| `PositionRuns.RunEffect` | app/execution/positions.py:76-199 | over any run of partial closes, break-even moves and trailing moves that do not overlap, at any prices, the stop never loosens, direction and target never change, and closed plus remaining volume is the original |
| `PositionRuns.EveryMoveRatchets` | app/execution/positions.py:98-199 | while calls do not overlap, each changed stop improves on the old one and lies on the protective side of the price at that moment |
| `PositionRuns.PartialCloseExact` | app/execution/positions.py:76-96 | a partial close takes the most whole steps within the fraction, exactly when that size and the remainder reach the minimum; the remainder stays on the grid; otherwise nothing changes |
| `PositionRuns.RunLeavesTradable` | app/execution/positions.py:76-199 | over any run of management calls, failing anywhere, a position that starts on the grid and at or above the minimum is still open, on the grid and at or above the minimum, unless a call asks for the whole of it |
| `PositionRuns.GoneWasClosedWhole` | app/execution/positions.py:76-96 | so a position that is gone after a run was closed by a call for the whole of it |
| `PositionRaces.RacesConserve` | app/execution/positions.py:76-199 | however management calls overlap between their reads and writes, direction, open price and target never change and closed plus remaining volume is the original |
| `PositionRaces.RatchetsIff` | app/execution/positions.py:143-199 | however they overlap, every stop written improves on the one it replaces if and only if no call is overtaken, between its read and its write, by a stop that its own does not improve on |
| `PositionRaces.OverlappingTrailsLoosen` | app/execution/positions.py:143-199 | a concrete run in which two overlapping trailing calls take the stop from 90 to 115 and back to 105 |
| `Positions.PositionManager.PartialClose` | app/execution/positions.py:76-96 | its effect and answer for every fraction, broker failure and volume |
| `Positions.PositionManager.MoveToBreakEven` | app/execution/positions.py:98-141 | its effect and answer: applied only when it improves the stop and the price has cleared it |
| `Positions.PositionManager.Trail` | app/execution/positions.py:143-199 | its effect and answer for every mode, likewise |
| `Lease.OneUnexpiredOwner` | app/workers/lease.py:79-131 | in every run with lost commands, lost replies, crashes and overruns a name has at most one unexpired owner |
| `Lease.ReleaseSparesOthers` | app/workers/lease.py:58-69 | a release, however late, leaves another worker's unexpired lease in place |
| `Lease.LostGrantBlocks` | app/workers/lease.py:79-99 | after a grant whose reply is lost, whatever events follow, until it expires its entry stands and nobody becomes an owner of the key |
| `Lease.GrantedBesideIff` | app/workers/lease.py:79-99 | in every run a delivered request for a key that somebody still owns is granted exactly when no live entry stands, and then every owner it finds has overrun its lease |
| `Lease.OthersLeaveAlone` | app/workers/lease.py:58-99 | whatever other workers do while an owner is at work, its entry stands while it lives and nobody else writes its token |
| `Lease.OverrunOverlaps` | app/workers/lease.py:101-131 | a concrete run in which an operation outlives its lease beside its successor |
| `Lease.LeaseManager.Acquire` | app/workers/lease.py:79-99 | a lease only on a delivered, successful set |
| `Lease.LeaseManager.Run` | app/workers/lease.py:101-131 | runs an operation under a lease while other workers act, and releases it on every path: its own entry goes if it still stands, and every other entry, a successor's included, is left alone |
| `Lease.RedisServer.Release` | app/workers/lease.py:15-20 | compare-and-delete by token |
| `RateLimiter.AcceptedIffRoom` | app/api/middleware.py:27-37 | on a clock that does not go back a request is accepted exactly when fewer than the limit were accepted for its key in the last 60 s |
| `RateLimiter.NoWindowExceedsLimit` | app/api/middleware.py:27-37 | no 60 s window, open at its start, ever holds more than the limit |
| `RateLimiter.ClosedWindowCanExceed` | app/api/middleware.py:27-37 | closed at both ends a window can hold more: a limit of one accepts at 0 s and at 60 s |
| `RateLimiter.SlidingWindowRateLimiter.Allowed` | app/api/middleware.py:27-37 | drops expired entries, then accepts and records the request if there is room |

## Left out

- FastAPI routes, authentication, notifications, settings, logging and migrations: wiring and input/output.
- The MetaTrader adapter and the serializing and retrying broker facades: wrappers over code that is not part of this model.
- Decimal's 28-digit rounding and float rounding: arithmetic is exact.
- Execution permission, demo validation, sessions, strategies, scoring and indicators: parameters, or absent.
- In `Symbols.dfy` white space is ASCII, the caller's own alias list is empty, as the broker passes it, and the error for a tie does not list the names.
- The circuit breaker inside an executing call: `execute` sees its answer as a parameter; its own runs are in `CircuitRuns.dfy`.
- The mock broker's deal and order history lists and its candle and symbol queries: nothing modelled reads them.
- Timestamps inside trade-state transitions, and the free text of refused-transition errors.
- `upper()` on symbol names is modelled for ASCII letters only.
- The SQL idempotency and recovery-ledger adapters, and the outbox.
- `PositionManager.ensure_protection`: it deliberately restores a required stop, so it is outside the one-way stop.
- Risk-adjusted, session and segment metrics.
- Exposure.EntryBounded: for calls that watch every name, which is needed for each (Coverage.CoverIsExact); what the market enters itself, fills between the two reads included, is added to the bound.
- Interleaving.AtMostOneSend: says nothing about refused updates among overlapping calls, because those do happen (Witnesses.OvertakenCallIsRefused).
- CircuitLog.LogRefinesMap: holds for runs of fewer than 10^20 events, the width of the padded version text, and for accounts that the type tells apart, which is needed (CircuitLog.RefinesIffTellsApart).
- Executor.Serve: the market moves between the calls; moves during a call are covered by the run theorems of `Interleaving.dfy`, `Serialized.dfy` and `Exposure.dfy`, not by the executor object.
- PositionRuns.RunEffect: one call at a time; `PositionRaces.dfy` has what overlapping calls keep.
- Metrics.FractionIsLargest: for curves that are never negative; Metrics.FractionIsLargestIff is the exact condition for every curve.
- Recovery.LostReplyIsRecovered: assumes that during the reconciliation the broker answers and allows modification, and that positions have distinct, nonempty tickets.
- Returns.BacktestReturnsCompound: the calendar formatting of period keys is a parameter; it must not go back in text order as time passes.
