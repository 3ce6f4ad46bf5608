# AUREXIS verification model

A Dafny model of the decision core of the AUREXIS trading platform and machine-checked proofs about it.
`dafny verify dfyconfig.toml` checks the whole project.

The model follows the program in four connected parts. One file holds one module.

1. **From ticks to bars.** `MarketData` (ticks, bars, bucket flooring), `BarBuilding` (the streaming builder
   and the seeding of history, as state functions and as the class `BarBuilder`), `StreamEqualsBatch`,
   `Seeding`, `SeededHistory` (ticks and seedings in any order), `TimeframeHierarchy`, `BarAggregation`,
   `MultiTimeframe`.
2. **From bars to a proposal.** `Indicators`, `IndicatorLoops` (the loops of the program, proved against the
   recurrences), `IndicatorBounds`, `Regime`, `Structure`, `Scoring`, `SignalPipeline`; and the two-run
   symmetry theorems `Mirror`, `StructureMirror`, `SignalMirror`, with `SignalAsymmetry` for what happens to
   a proposal in the markets in which symmetry fails and `SignalMirrorCases` for one such market of each kind.
3. **From a proposal to money.** `Sizing`, `RiskEngine`, `Ledger` (a backtest as a function of the ticks and of
   what the brain answers), `Drawdown`, `Statistics`, `Backtest` (the engine with mutable trade records, proved
   to compute the ledger), `LedgerTheorems`, `LossBound`, `BacktestTheorems`, `DrawdownCase` (one run), `BacktestMirror`
   (a whole backtest in the reflected market), `Payoff`, `MonteCarlo`.
4. **From an approval to the broker.** `Commands`, `Simulator`, `Reconciliation`, `ExecutionService`,
   `TradingPipeline`, `TicketConflicts` (a new simulator on an old database), `AgentCommands`, `AgentResults`, `AgentProtocol`, `StrategyGate`.

`Prelude` and `Arithmetic` hold sums, sorted keys and the few facts about products and quotients in use.

## How the model reads the program

- `Decimal` is `real`: sums, products and quotients are exact, where the program rounds to 28 significant digits.
- Times are integers: microseconds since the epoch for ticks and bars. `int()` truncates towards zero, so does
  `EpochSeconds`.
- Whatever the program asks of the outside world is a parameter: the wall clock (staleness, expiry, order of
  creation times), random UUIDs, the shuffles of the random generator, whether a socket took a message, and
  which accounts, agents and market data a gate finds. Theorems hold for every value of these parameters.
- A database table is a sequence or a map of rows, and one committed transaction is one step. Interleaving
  theorems let the steps follow each other in any order.
- Python's `a or b` is modelled with its truth values: a missing or zero number falls through.
- Where the program raises, the model returns a rejection, or names the raised case (`Crashed`, `Conflict`,
  `Raised`).

## What the code does not do

Some properties that the comments or documents suggest are not true of the code. Each is settled by a concrete
case and, where the code meets the property on some inputs, by its exact condition.

- The lot cap is rounded half-even to the step's decimal place after the comparison, so a cap of 0.015 grants
  0.02 lots (`Sizing.CapExceeded`) and one of 0.004 grants none (`Sizing.CapGrantsNothing`). The cap is respected
  exactly when it does not round up (`Sizing.CapRespected`), and the broker's minimum exactly when the rounded cap
  reaches it (`Sizing.CappedGrantReachesMinimum`).
- The reported drawdown percentage belongs to the largest drop in money, not to the largest percentage
  (`Drawdown.PercentageIsNotMaximal`, and a whole run in `DrawdownCase.HalvedReportedAsTenPercent`). It is the largest percentage if and only if no fall from a peak below that
  of the reported fall exceeds it (`Drawdown.PercentageMaximalFromPositiveStart`, for any starting balance
  `Drawdown.PercentageMaximalExactly`, for the report `BacktestTheorems.ReportedPercentage`).
- A losing-only backtest reports no profit factor, like one without losses; there is one if and only if there are
  both winning and losing trades (`BacktestTheorems.ProfitFactorReported`).
- RSI reads 100 in a motionless market and in its mirror image, so `classify_regime` is mirror-symmetric
  exactly outside the markets `Mirror.OneSided` (`Mirror.RegimeReflected`, `Mirror.OneSidedMarketExists`), and the
  whole context exactly outside `SignalMirror.StuckAtHundred` (`SignalMirror.ContextReflected`).
- A contracting market is labelled CHOCH_BULLISH whichever way up it is read
  (`StructureMirror.ContractionIsAlwaysBullish`). With non-negative displacements event, direction and swings
  reflect if and only if the pivot prices neither contract nor expand (`SignalMirror.WholeStructureReflected`,
  `SignalMirror.UnevenMeansContractingOrExpanding`), and setups exchange if and only if the last bar does not fake
  out on both sides (`SignalMirror.SetupReflected`, `SignalMirror.TwoWayMeansDoubleFakeout`).
- Three kinds of market are therefore not reflected by scoring: motionless ones, contracting or expanding ones, and
  double fakeouts; everywhere else all inputs of scoring reflect (`SignalMirror.InputsReflected`). Each kind moves
  confidence from one side to the other by an exact amount (`SignalAsymmetry.StillShifts`,
  `SignalAsymmetry.UnevenShifts`, `SignalAsymmetry.TwoWayShifts`), so in a market of one kind a proposal is the
  reflected one of the mirror image if and only if neither proposes anything (`SignalAsymmetry.StillBreaksProposals`,
  `SignalAsymmetry.UnevenBreaksProposals`, `SignalAsymmetry.TwoWayBreaksProposals`). Under the shipped weights and
  thresholds each kind has a market with a proposal (`SignalMirrorCases.MotionlessBreaksSymmetry`, with a confidence
  threshold of 0.65, `SignalMirrorCases.ContractionBreaksSymmetry`, `SignalMirrorCases.DoubleFakeoutBreaksSymmetry`).
- Ticks append closed bars without looking at seeded ones. Under any interleaving the history stays in time order if
  and only if every bar that closes starts after the newest one held (`SeededHistory.InOrderExactly`); seeding the
  bucket that is still running ends with two bars of one open time (`SeededHistory.SeedingTheRunningBucketDuplicates`),
  and seeding only older bars is always safe (`SeededHistory.SeedingOlderBarsIsSafe`).
- Through `reconcile_account_positions` an open row that the broker no longer has is never reported, because
  the dictionary it builds has no status (`ExecutionService.PhantomUnseen`, `ExecutionService.ServiceCleanMeaning`).
- The simulator reports every unexpired close as filled, and a position goes if and only if its ticket was held
  (`Simulator.CloseAlwaysReportsFilled`, `Simulator.NothingClosedReportedFilled`).
- Pipelines of two accounts that share a simulator freeze each other (`TradingPipeline.AccountsFreezeEachOther`): an
  execution freezes its account if and only if the simulator holds a position of another one
  (`TradingPipeline.FreezesExactlyWhenShared`, `TradingPipeline.CriticalMeansSharedSimulator`). The freeze stops the
  pipeline that found it and no other pipeline of the account (`TradingPipeline.FreezeStaysAtItsDesk`).
- A new simulator starts at ticket 1000001 again. On a database that already holds positions of the account a
  dispatch fails on the ticket constraint if and only if it fills under a ticket the account has
  (`TicketConflicts.ConflictExactly`), and a restart costs an account with a database of its own one failed fill per position
  (`TicketConflicts.RestartCostsOneFillPerPosition`, `TicketConflicts.RestartedAccountFails`).
- `mark_sent` tests no status. It is a move of the transition table on a pending command only
  (`AgentCommands.MarkingIsLegal`), and lets any finished command be completed again
  (`AgentCommands.MarkingReopens`); the strategy, its one caller, marks the command it has just created.
- After a failed delivery only the failing command returns to PENDING; the ones claimed after it stay SENT for
  good (`AgentProtocol.FailedDeliveryStrandsTheRest`, `AgentProtocol.UnsentCommandsStay`).

## Model

| member | source | states |
|---|---|---|
| MarketData.BucketMonotone | brain/bar_builder.py:68-72 | a later timestamp never falls into an earlier bucket, for any bucket width, before the epoch as well |
| MarketData.BucketNests | brain/bar_builder.py:68-72 | flooring to a fine grid first does not change the bucket of a grid it divides |
| MarketData.BucketIdempotent | brain/bar_builder.py:68-72 | a bucket start is its own bucket |
| BarBuilding.BarBuilder.constructor | brain/bar_builder.py:32-46 | a builder starts empty, on one of the seven timeframes |
| BarBuilding.BarBuilder.ProcessTick | brain/bar_builder.py:74-127 | the fields after a tick are one step of the aggregation; a bar is returned exactly when the tick crosses into a later bucket, and it is the bar that was running |
| BarBuilding.BarBuilder.SeedClosedBars | brain/bar_builder.py:52-65 | the history afterwards is the merge of old and new closed bars by open time, in time order, newest 300 |
| StreamEqualsBatch.StreamingEqualsBatch | brain/bar_builder.py:68-127 | after any stream, late ticks included, there is exactly one bar per non-empty bucket, the newest still running, each with the first, highest, lowest and last mid and the summed volume of the ticks booked to it; open times strictly increase and are aligned; closed and running volume add up to the total |
| StreamEqualsBatch.OrderedFrontier | brain/bar_builder.py:68-127 | on a time-ordered stream a tick is booked to the bucket of its own timestamp |
| StreamEqualsBatch.OrderedStreamBars | brain/bar_builder.py:104-127 | on a time-ordered stream a closed bar summarises exactly the ticks whose timestamp lies in it |
| StreamEqualsBatch.ClosedBarsWellFormed | brain/bar_builder.py:100-127 | open and close of every closed bar lie between its low and its high |
| Seeding.SeedTwice | brain/bar_builder.py:52-65 | two seedings are one seeding of both batches: what the first cut off could not have survived the second |
| Seeding.SeedInBatches | brain/bar_builder.py:52-65 | any sequence of batches equals one seeding of the whole, later bars overriding, sorted, without duplicate open times, at most 300 long |
| Seeding.ReseedIsIdentity | brain/bar_builder.py:52-65 | seeding a history with any part of itself changes nothing |
| SeededHistory.InOrderExactly | brain/bar_builder.py:52-127 | under any interleaving of ticks and seedings the closed bars stay strictly increasing in open time if and only if every bar that closes starts after the newest one held at that moment |
| SeededHistory.SeedingOlderBarsIsSafe | brain/bar_builder.py:52-127 | seeding only bars older than the running one keeps the history in order for ever |
| SeededHistory.SeedingTheRunningBucketDuplicates | brain/bar_builder.py:52-127 | seeding the running bucket ends, at the next bucket, with two bars of one open time |
| TimeframeHierarchy.CoarseMergesFine | brain/bar_builder.py:74-127 | for any ticks and nested timeframes every closed coarse bar is the merge of the closed fine bars of its bucket, and the running one the merge of the rest with the running fine bar |
| BarAggregation.AggregateBars | backend/services/market_data_service.py:351-398 | the result lists, in time order, one bar per non-empty bucket and no other; in whatever order its bars come, the open is that of the first of the earliest, close and close time those of the last of the latest, the high is the highest, the low the lowest, and the volume the sum |
| BarAggregation.SortByTime | backend/services/market_data_service.py:382 | the sort by open time is in time order, a permutation, and stable |
| BarAggregation.StableSortUnique | backend/services/market_data_service.py:382 | a list has only one stable sort by time |
| BarAggregation.SynthesisMeaning | backend/services/market_data_service.py:381-397 | the figures taken from the sorted bars of a bucket are the first open, last close, highest high, lowest low and total volume of the unsorted ones |
| BarAggregation.SyntheticUnique | backend/services/market_data_service.py:381-397 | those figures determine the bar |
| BarAggregation.AggregateMatchesLive | backend/services/market_data_service.py:351-398 | aggregating the stored fine bars of any stream reproduces the live coarse bars, plus at most the part of the running one that is closed on the fine side |
| MultiTimeframe.MultiTimeframeBarManager.constructor | brain/market_data/multi_timeframe.py:49-66 | one empty builder of its own per timeframe |
| MultiTimeframe.MultiTimeframeBarManager.ValidateTick | brain/market_data/multi_timeframe.py:75-84 | which of the four rejections applies, in their order; an accepted tick keeps the accepted stream time-ordered |
| MultiTimeframe.MultiTimeframeBarManager.IngestTick | brain/market_data/multi_timeframe.py:104-115 | a rejected tick changes nothing; an accepted one becomes the last tick, steps every builder once and reports exactly the bars that closed |
| MultiTimeframe.MultiTimeframeBarManager.GetClosedBars | brain/market_data/multi_timeframe.py:117-121 | the closed bars of a tracked timeframe, and a rejection of any other |
| MultiTimeframe.MultiTimeframeBarManager.SeedClosedBars | brain/market_data/multi_timeframe.py:126-131 | seeds the one builder and leaves the others alone |
| MultiTimeframe.MultiTimeframeBarManager.ServedBarsAgree | brain/market_data/multi_timeframe.py:104-121 | at every moment the bars an unseeded manager serves on two nested timeframes agree by merging |
| IndicatorLoops.CalculateEma | brain/indicators.py:29-40 | the loop computes the exponential recurrence seeded by the mean, or nothing when bars or period are too few |
| IndicatorLoops.CalculateAtr | brain/indicators.py:41-67 | the loop computes the Wilder average of the true ranges |
| IndicatorLoops.CalculateRsi | brain/indicators.py:70-106 | the loop computes the RSI of the two Wilder averages, 100 without losses |
| IndicatorLoops.CalculateAtrBaseline | brain/indicators.py:109-131 | recomputing ATR on every prefix gives the average of the last values of one running Wilder pass over exactly the requested number of bars |
| IndicatorLoops.CalculateAdx | brain/indicators.py:141-206 | the loops compute +DI, -DI and ADX from the smoothed sums, and always return a value once the length guard passes |
| IndicatorBounds.WilderInBand | brain/indicators.py:41-67 | a Wilder average never leaves the band of its inputs |
| IndicatorBounds.AtrNonNegative | brain/indicators.py:41-67 | ATR is never negative |
| IndicatorBounds.BaselineInBand | brain/indicators.py:109-131 | the baseline averages exactly the requested number of values and lies between the smallest and the largest true range |
| IndicatorBounds.RsiInRange | brain/indicators.py:70-106 | RSI lies in [0, 100] |
| IndicatorBounds.SmoothedIsScaledWilder | brain/indicators.py:141-206 | the smoothed sums ADX keeps are the Wilder averages times the period |
| IndicatorBounds.AdxBounds | brain/indicators.py:134-206 | on well-formed bars +DI and -DI are non-negative with sum at most 100 and ADX lies in [0, 100]; no division by zero |
| Mirror.EmaReflected | brain/indicators.py:29-40 | reflecting every price p to c - p maps the EMA to c - EMA |
| Mirror.RangesReflected | brain/indicators.py:41-67 | reflection keeps ATR, baseline and ADX and swaps +DI and -DI |
| Mirror.RsiReflected | brain/indicators.py:70-106 | reflection maps RSI to 100 - RSI if and only if the market moved; a motionless one reads 100 both ways |
| Mirror.RegimeReflected | brain/regime.py:57-163 | the reflected market has the opposite trend, and the flipped regime if and only if it is not one-sided, a condition on its averages, ADX, ATR and closes |
| Mirror.NeverOneSided | brain/regime.py:57-163 | no market is one-sided when RSI smooths over two bars or more, or the thresholds stay within 100 |
| Mirror.OneSidedMarketExists | brain/regime.py:57-163 | a concrete market whose mirror image is not read as the flipped regime |
| StructureMirror.StructureReflected | brain/structure.py:79-168 | the reflected market has the opposite bias if and only if it is not ambiguous; recent swing highs become reflected swing lows and vice versa |
| StructureMirror.NeverAmbiguous | brain/structure.py:79-118 | a non-negative break multiplier leaves no ambiguity |
| StructureMirror.ContractionIsAlwaysBullish | brain/structure.py:142-150 | a contracting market and its mirror image are both labelled CHOCH_BULLISH |
| SignalMirror.ContextReflected | brain/regime.py:57-163 | trend, momentum and regime flip while strength, volatility and ATR stay, if and only if the market is not motionless under thresholds that treat an RSI of 100 unevenly |
| SignalMirror.WholeStructureReflected | brain/structure.py:79-176 | bias, event, direction and recent swings all reflect if and only if the pivot prices are not uneven |
| SignalMirror.UnevenMeansContractingOrExpanding | brain/structure.py:106-150 | without a negative break multiplier the uneven pivot prices are exactly the contracting and the expanding ones |
| SignalMirror.SetupReflected | brain/strategy/setups.py:36-120 | long and short setups exchange if and only if there is no setup on both sides at once |
| SignalMirror.TwoWayMeansDoubleFakeout | brain/strategy/setups.py:36-120 | without a negative displacement a setup on both sides is exactly a bar that pierces the swing high and the swing low and closes between them |
| SignalMirror.EvidenceReflected | brain/scoring.py:21-87 | each of the six scores treats the two sides alike |
| SignalMirror.LevelsReflected | brain/scoring.py:192-218 | stop and target of one side are the reflected stop and target of the other |
| SignalMirror.InputsReflected | brain/pipeline.py:84-203 | all that scoring reads reflects if and only if the market is not lopsided: RSI not stuck at 100, pivot prices not uneven, no setup on both sides |
| SignalMirror.ProposalReflected | brain/pipeline.py:84-203 | turning all prices upside down turns every proposal of an even-handed configuration into the opposite one with reflected levels and the same confidence, outside the markets in which the inputs do not reflect |
| SignalAsymmetry.UnevenShifts | brain/scoring.py:21-33 | in a contracting market reflection takes exactly 0.6 of the structure weight from BUY and gives it to SELL, in an expanding one the other way round |
| SignalAsymmetry.TwoWayShifts | brain/strategy/setups.py:36-120 | a double fakeout takes exactly 0.8 of the setup weight from SELL and gives it to BUY |
| SignalAsymmetry.StillShifts | brain/regime.py:57-163 | a motionless market takes exactly the momentum weight from BUY and gives it to SELL |
| SignalAsymmetry.UnevenBreaksProposals | brain/pipeline.py:84-203 | in a contracting or expanding market that is otherwise symmetric a proposal is reflected if and only if there is none in either image |
| SignalAsymmetry.TwoWayBreaksProposals | brain/pipeline.py:84-203 | the same for a double fakeout |
| SignalAsymmetry.StillBreaksProposals | brain/pipeline.py:84-203 | the same for a motionless market, when RSI smooths over two bars or more |
| SignalMirrorCases.MotionlessBreaksSymmetry | brain/pipeline.py:120-192 | with the shipped weights, displacements and thresholds, short periods and a confidence threshold of 0.65, a market whose closes never move and whose proposal is not reflected |
| SignalMirrorCases.ContractionBreaksSymmetry | brain/pipeline.py:120-192 | with the shipped scoring, displacements and thresholds and short periods, a contracting market whose proposal is not reflected |
| SignalMirrorCases.DoubleFakeoutBreaksSymmetry | brain/pipeline.py:120-192 | with the shipped scoring, displacements and thresholds and short periods, a double fakeout whose proposal is not reflected |
| Structure.DetectSwingPoints | brain/structure.py:44-76 | the loop lists the pivots bar by bar, a high before a low |
| Structure.SwingsExact | brain/structure.py:44-76 | the list holds exactly the bars that beat every other bar of their window |
| Structure.SwingsOrdered | brain/structure.py:44-76 | pivots come in bar order |
| Structure.NoRepaint | brain/structure.py:44-76 | the pivots of any prefix of length m are the final pivots below index m - lookback, in the same order |
| Structure.PivotsSpaced | brain/structure.py:44-76 | two pivots of the same kind are more than lookback bars apart |
| Scoring.Evaluate | brain/scoring.py:125-190 | the loop over directions computes the pick of both sides in order, and nothing when a gate closes |
| Scoring.PickIsBest | brain/scoring.py:155-190 | the emitted signal is a qualifying side of the highest confidence, and there is none only if no side reaches the threshold with valid levels |
| Scoring.SlTpSound | brain/scoring.py:192-218 | stop and target lie on opposite sides of the entry, the stop at least the minimum away, the target rr times as far |
| Scoring.SignalSound | brain/scoring.py:125-218 | every emitted signal enters at the touch, reaches the threshold and has sound levels, for any structure, regime and setup |
| Scoring.AnalyzedStructureCoherent | brain/structure.py:120-168 | the three labels of an analysed structure agree with each other |
| Scoring.DirectionsShareEvidence | brain/scoring.py:21-87 | BUY and SELL confidence together never exceed the weight sum plus half the trend weight plus the volatility weight |
| Scoring.UniqueDirection | brain/scoring.py:155-190 | with a threshold above half that bound at most one direction qualifies, so the order of the loop does not matter |
| Scoring.DefaultsHaveUniqueDirection | brain/scoring.py:93-124 | the shipped weights and threshold satisfy that condition |
| SignalPipeline.ProposalsSound | brain/pipeline.py:84-203 | from any bars and any tick a proposal is sound, enters only in a permitted regime and is the only direction that qualifies |
| Sizing.SizingSafeAndMaximal | backend/risk/sizing.py:53-80 | the lots risk at most the budgeted share of equity at the stop, and without a cap one more lot step would exceed it |
| Sizing.GrantedLots | backend/risk/sizing.py:53-80 | lots are granted only for a real stop distance and positive equity, and never exceed the floored lots |
| Sizing.CapRespected | backend/risk/sizing.py:70-80 | the configured maximum is respected if and only if it does not round up |
| Sizing.CapExceeded | backend/risk/sizing.py:70-80 | a maximum of 0.015 grants 0.02 lots |
| Sizing.CappedGrantReachesMinimum | backend/risk/sizing.py:60-80 | a grant is at least the minimum lot if and only if no cap applies or the rounded cap is |
| Sizing.CapGrantsNothing | backend/risk/sizing.py:70-80 | a maximum of 0.004 grants zero lots |
| RiskEngine.ApprovedExactly | backend/risk/engine.py:135-390 | an entry is approved if and only if the engine is armed and configured, every limit is respected and the lots fit; other verdicts carry no lots |
| RiskEngine.ApprovalRespectsLimits | backend/risk/engine.py:215-390 | what an approval certifies about positions, drawdown, daily loss and exposure |
| RiskEngine.ApprovedLotsWithinBudget | backend/risk/engine.py:325-390 | without the fixed-lot fallback approved lots put at most the configured share of equity at risk |
| Backtest.TradeRecord.Close | brain/backtest/engine.py:297-321 | stamps the exit on the record in place and books gross result less commission |
| Backtest.CloseIfTouched | brain/backtest/engine.py:249-331 | a position closes exactly when the tick touches its stop or target, the stop first, at that level |
| Backtest.SettlePositions | brain/backtest/engine.py:245-335 | splits the open records into survivors and exits in order and adds the realised results to the balance |
| Backtest.FloatingPnl | brain/backtest/engine.py:341-353 | the floating result at the side of the book each position would close on |
| Backtest.TrackEquity | brain/backtest/engine.py:357-373 | peak, largest drop and its percentage after one more equity mark |
| Backtest.AskRisk | brain/backtest/engine.py:403-457 | the snapshot and market condition handed to the risk engine are those of the ledger |
| Backtest.OpenTrade | brain/backtest/engine.py:463-503 | a fill at the touch plus slippage with the commission of both legs |
| Backtest.ConsiderEntry | brain/backtest/engine.py:401-505 | a trade is created exactly if risk approves with non-zero lots |
| Backtest.CloseRemaining | brain/backtest/engine.py:509-545 | closes every remaining record at the last tick |
| Backtest.Summarise | brain/backtest/engine.py:549-681 | every figure of the report means what its name says about the realised results |
| Backtest.BacktestEngine.constructor | brain/backtest/engine.py:181-189 | the engine wires the pipeline, the risk configuration and an empty bar builder |
| Backtest.BacktestEngine.Run | brain/backtest/engine.py:193-681 | over mutable trade records the run computes the ledger of its ticks, with the brain asked on the bars closed in the run; an empty stream yields the empty report |
| Statistics.GrossDifferenceIsNet | brain/backtest/engine.py:553-593 | gross profit less gross loss is the net result |
| Statistics.Largest | brain/backtest/engine.py:597-599 | largest win and largest loss, zero without any |
| Statistics.ConsecutiveRuns | brain/backtest/engine.py:605-639 | consecutive wins and losses are the lengths of the longest such runs |
| LedgerTheorems.BalanceConserved | brain/backtest/engine.py:297-335 | over every run the final balance is the initial one plus every realised result, and nothing stays open |
| LedgerTheorems.MaxDrawdownExact | brain/backtest/engine.py:339-373 | at every tick the tracked drawdown is the largest fall of the marked equity from any earlier point, the start included |
| LedgerTheorems.EveryTradeLivesItsOwnLife | brain/backtest/engine.py:245-545 | every entered trade is completed exactly once, at the first later tick that touches its stop or target, or else at the last tick, whatever the other trades do |
| LedgerTheorems.ExposureSafe | brain/backtest/engine.py:401-505 | at every tick the number of open positions and the sum of open lots stay within the configured limits |
| Drawdown.TrackerExact | brain/backtest/engine.py:357-373 | the one-pass recurrence computes the true maximum and the true maximum drawdown of any curve |
| Drawdown.PercentageIsNotMaximal | brain/backtest/engine.py:365-373 | a curve that halves is reported with a 10 percent drawdown |
| DrawdownCase.HalvedReportedAsTenPercent | brain/backtest/engine.py:193-681 | a run of five ticks and one trade in which the marked equity falls from 100 to 50 and every report says 10 percent |
| Drawdown.PercentageMeaning | brain/backtest/engine.py:365-373 | from a positive start the percentage is the largest money drop over the peak it fell from |
| Drawdown.PercentageMaximalExactly | brain/backtest/engine.py:357-373 | from any start the percentage is the largest percentage fall if and only if no fall that the reported one does not dominate exceeds it |
| Drawdown.PercentageMaximalFromPositiveStart | brain/backtest/engine.py:357-373 | from a positive start the percentage is the largest percentage fall if and only if no fall from a peak below the reported one exceeds it |
| LossBound.StoppedTradesLoseAtMostTheirBudget | brain/backtest/engine.py:259-325 | a trade stopped out loses at most the budgeted share of the equity at its entry, scaled by contract size, plus slippage and commission, for any ticks and any proposals at the touch |
| BacktestTheorems.ReportIsConsistent | brain/backtest/engine.py:549-681 | the report balances, counts every entered trade once and states the true maximum drawdown |
| BacktestTheorems.ReportedPercentage | brain/backtest/engine.py:357-373 | over any run from a positive balance the reported percentage is the largest percentage fall of the marked equity if and only if no fall from a lower peak exceeds it |
| BacktestTheorems.ProfitFactorReported | brain/backtest/engine.py:581-591 | the report has a profit factor if and only if it counts both winning and losing trades, and then it is gross profit per gross loss |
| BacktestTheorems.BrainSeesLiveBars | brain/backtest/engine.py:377-397 | a new engine shows the brain exactly the closed bars of the live aggregator |
| BacktestTheorems.NoLookahead | brain/backtest/engine.py:169-177 | the ledger after n ticks depends on the first n ticks alone |
| BacktestTheorems.StoppedLossEndToEnd | brain/backtest/engine.py:193-545 | from ticks to money: with percentage sizing, no fallback and contract size 100 no stopped trade of the pipeline loses more than budget, slippage and commission |
| BacktestMirror.LedgerReflected | brain/backtest/engine.py:193-545 | whatever is proposed, reflected ticks and proposals make the same balance, equity curve and drawdown, and every trade on the other side at reflected prices with the same lots and result |
| BacktestMirror.BarsReflected | brain/bar_builder.py:74-127 | reflected ticks build the reflected bars at every moment |
| BacktestMirror.BacktestReflected | brain/backtest/engine.py:193-545 | from ticks to money: an even-handed pipeline makes the reflected backtest of the reflected ticks as long as no bar closes on a lopsided market |
| BacktestMirror.ReportReflected | brain/backtest/engine.py:549-681 | no figure of the report depends on which way up the market is |
| Payoff.PayoffsEndToEnd | brain/backtest/engine.py:193-545 | from ticks to payoffs: every trade of the pipeline that leaves at its target earns exactly rr times the money at risk, every one that leaves at its stop loses exactly that money, each less slippage and commission |
| MonteCarlo.RunMonteCarloOrderShuffle | brain/backtest/robustness.py:44-75 | one drawdown per reshuffled path, or a single zero without trades |
| MonteCarlo.DrawdownIsMaxBlockLoss | brain/backtest/robustness.py:60-72 | the drawdown of a path is its worst contiguous block of results |
| MonteCarlo.ShuffleBounds | brain/backtest/robustness.py:56-75 | for every order the final equity is the same and the drawdown lies between net loss, every single loss and zero below and the gross loss above |
| Commands.ExecutionCommand.TransitionTo | backend/execution/commands.py:105-122 | a transition outside the table changes nothing and returns false; an allowed one sets state, reason and timestamps |
| Commands.LivesAreShort | backend/execution/commands.py:44-59 | no state is entered twice, so a command makes at most six transitions |
| Commands.FilledWasExecuted | backend/execution/commands.py:44-59 | a filled command was created, sent, acknowledged and executing, in that order |
| Commands.Absorbing | backend/execution/commands.py:44-59 | exactly REJECTED, EXPIRED and RECONCILED have no way out |
| Simulator.MT5AgentSimulator.ExecuteCommand | backend/execution/simulator.py:49-140 | the new ticket counter and position map and the report, for opens, closes, expiries and unsupported actions |
| Simulator.MT5AgentSimulator.GetOpenPositions | backend/execution/simulator.py:45-47 | the held positions in ticket order |
| Simulator.TicketsNeverReused | backend/execution/simulator.py:41-98 | over any sequence of orders every open draws a ticket no position has ever had, in increasing order |
| Simulator.CloseUndoesOpen | backend/execution/simulator.py:63-125 | closing the ticket an open returned gives back the old positions, and the ticket is not reused |
| Simulator.CloseAlwaysReportsFilled | backend/execution/simulator.py:109-126 | every unexpired close is reported filled, and the positions change if and only if its ticket is held |
| Simulator.NothingClosedReportedFilled | backend/execution/simulator.py:109-126 | a close on an empty simulator is reported filled |
| Reconciliation.Reconcile | backend/execution/reconciliation.py:65-148 | the discrepancies of broker and server side in order, the matched count and the clean flag |
| Reconciliation.VerdictMeaning | backend/execution/reconciliation.py:51-148 | clean if and only if every broker position is tracked with equal volume and side and no OPEN server position is missing; critical if and only if some broker position is untracked or different |
| Reconciliation.NoStatusNoPhantom | backend/execution/reconciliation.py:127-142 | without a status entry a missing position is never reported |
| ExecutionService.Service.ExecuteApprovedSignal | backend/services/execution_service.py:53-216 | the rows written, the simulator state and the outcome of one request; the stored status is that of the in-memory command after legal transitions only |
| ExecutionService.Service.ReconcileAccountPositions | backend/services/execution_service.py:218-275 | reconciles the open rows of the account against the broker positions |
| ExecutionService.ServiceCleanMeaning | backend/services/execution_service.py:235-249 | through the service clean means every broker position is tracked, and not clean means critical |
| ExecutionService.PhantomUnseen | backend/services/execution_service.py:235-249 | an OPEN row with no broker position reconciles clean |
| TradingPipeline.Pipeline.ProcessTick | backend/services/trading_pipeline.py:167-496 | status, database, simulator and frozen accounts after one cycle: a frozen account, each outcome before execution with its own status, or execution, reconciliation and freezing |
| TradingPipeline.Pipeline.FreezeAccount | backend/services/trading_pipeline.py:127-134 | records the account as frozen with its reason |
| TradingPipeline.Pipeline.UnfreezeAccount | backend/services/trading_pipeline.py:136-139 | removes exactly that account |
| TradingPipeline.AlwaysConsistent | backend/services/trading_pipeline.py:363-474 | over every run of any number of pipelines from an empty database and one new simulator, open rows and broker positions correspond one to one on account, ticket, side and lots, each from its own filled command, and no transaction fails on the ticket constraint |
| TradingPipeline.OnePositionPerKey | backend/services/execution_service.py:79-94 | two positions never come from one idempotency key or one ticket |
| TradingPipeline.CriticalMeansSharedSimulator | backend/services/trading_pipeline.py:444-456 | along every run the account of a pipeline reconciles critically if and only if the simulator holds a position of another account, and clean otherwise |
| TradingPipeline.FreezesExactlyWhenShared | backend/services/trading_pipeline.py:443-456 | an executed proposal freezes its account in its pipeline if and only if the simulator holds a position of another account |
| TradingPipeline.AccountsFreezeEachOther | backend/services/trading_pipeline.py:443-456 | from an empty database and a new simulator, three cycles after which the pipelines of two accounts are both frozen |
| TradingPipeline.FreezeStaysAtItsDesk | backend/services/trading_pipeline.py:90-139 | what one pipeline does never freezes or unfreezes another one, not even of the same account |
| TradingPipeline.PrivateSimulatorNeverFreezes | backend/services/trading_pipeline.py:443-474 | with a simulator of its own no pipeline of the account ever freezes |
| TicketConflicts.ConflictExactly | backend/services/execution_service.py:79-216 | a dispatch violates the constraint on account and ticket if and only if it fills under a ticket the account has; the database stays, the simulator keeps the position |
| TicketConflicts.RestartCostsOneFillPerPosition | backend/services/execution_service.py:79-216 | where all rows are of one account under consecutive tickets, the fills after a restart fail and record nothing until all these tickets have been drawn again, and the next one goes through |
| TicketConflicts.RestartedAccountFails | backend/services/execution_service.py:79-216 | one trade, a restart, and the next trade fails |
| AgentCommands.Queue.CreateCommand | backend/services/agent_commands.py:63-117 | a supported type in any letter case queues a PENDING row, any other changes nothing |
| AgentCommands.SelectPending | backend/services/agent_commands.py:166-175 | the oldest pending commands of the agent, at most the limit, none older left out |
| AgentCommands.Queue.ClaimPendingCommands | backend/services/agent_commands.py:152-195 | exactly the selected commands become SENT with the time of the claim |
| AgentCommands.Queue.MarkSent | backend/services/agent_commands.py:198-224 | marks an own command SENT with the time, whatever its status, and refuses any other |
| AgentCommands.MarkingIsLegal | backend/services/agent_commands.py:198-224 | marking is a move of the transition table if and only if the command is pending |
| AgentCommands.MarkingReopens | backend/services/agent_commands.py:198-224 | a marked command can be completed whatever it was before, while unmarked only a sent or acknowledged one can |
| AgentCommands.Queue.AcknowledgeCommand | backend/services/agent_commands.py:239-273 | acknowledges an own command the table allows, and refuses otherwise without a change |
| AgentCommands.Queue.CompleteCommand | backend/services/agent_commands.py:276-316 | completes an own command the table allows and stores the result |
| AgentCommands.Queue.FailCommand | backend/services/agent_commands.py:319-357 | fails an own command the table allows and stores at most 500 characters of the message |
| AgentCommands.Queue.Revert | backend/api/v1/agent_ws.py:150-155 | returns a command to PENDING only if it is still SENT |
| AgentCommands.Queue.DeliverPendingCommands | backend/api/v1/agent_ws.py:109-165 | sends the claimed commands in order until one fails; that one is reverted, the later ones stay SENT |
| AgentResults.ResultHandler.RecordExecutionResult | backend/services/execution_service.py:280-403 | the report and position rows an agent result adds or changes |
| AgentResults.ResultHandler.HandleResultMessage | backend/api/v1/agent_ws.py:301-329 | transition and records in one transaction, with refusal and the rolled-back crash on a malformed payload ticket |
| AgentResults.OpenResultMeaning | backend/services/execution_service.py:353-380 | a filled open adds the reported position if its ticket is new to the account and touches no other row |
| AgentResults.CloseResultMeaning | backend/services/execution_service.py:382-403 | a filled close marks the open row of that account and ticket closed, with the price if there is one, and touches no other row |
| AgentProtocol.StepIsLegal | backend/services/agent_commands.py:37-44 | under every step a status moves along the table or back from SENT to PENDING by a revert, and no row is lost |
| AgentProtocol.TerminalIsFinal | backend/services/agent_commands.py:37-44 | a finished command never changes again, under any interleaving |
| AgentProtocol.ClaimedOncePerRevert | backend/services/agent_commands.py:152-195 | once claimed, a command is offered again only after its delivery was reverted |
| AgentProtocol.UnsentCommandsStay | backend/api/v1/agent_ws.py:128-163 | a command claimed but not sent stays SENT through any traffic that does not name it |
| AgentProtocol.FailedDeliveryStrandsTheRest | backend/api/v1/agent_ws.py:145-163 | after a failed send the failing command is claimable again and every other claimed one is SENT |
| AgentProtocol.OneReportPerCommand | backend/api/v1/agent_ws.py:301-327 | under every interleaving at most one result is recorded per command, filled exactly if it completed |
| AgentProtocol.PositionsEvolve | backend/services/execution_service.py:352-403 | position rows stay unique per account and ticket, none is lost or rewritten, and a closed one never opens again |
| StrategyGate.StrategyEngine.Enable | backend/services/strategy_service.py:173-193 | enables with the given dry-run flag and changes nothing else |
| StrategyGate.StrategyEngine.Disable | backend/services/strategy_service.py:196-210 | disables and changes nothing else |
| StrategyGate.StrategyEngine.SetKillSwitch | backend/api/v1/strategy_routes.py:384-400 | arming also disables the strategy; disarming does not enable it |
| StrategyGate.StrategyEngine.Evaluate | backend/services/strategy_service.py:215-549 | which gate stops an evaluation and what signal, engine state and command it leaves, an exception during live execution included |
| StrategyGate.StrategyEngine.Send | backend/services/strategy_service.py:463-547 | creates the command, marks it sent, fails it if the socket did not take it, and sets the signal status; an exception on the way leaves no command, a pending, a sent or a failed one, and EXECUTION_FAILED |
| StrategyGate.OnePerCandle | backend/services/strategy_service.py:345-413 | over any sequence of evaluate, enable, disable and kill-switch steps the candles of signals and of commands strictly increase and every command belongs to a signal |
| StrategyGate.CommandNeedsAllGates | backend/services/strategy_service.py:253-461 | a command is created if and only if the strategy is enabled, live and not killed, every gate is open, an agent is connected and the creation does not raise; nothing else touches the queue |
| StrategyGate.KilledUntilDisarmedAndEnabled | backend/api/v1/strategy_routes.py:384-400 | after arming the kill switch no command is created until it was disarmed and the strategy enabled live again |

## Left out

- Rounding: `Decimal` context precision, the two-decimal `quantize` and `round` of reports and stored columns; results are stated on the unrounded values.
- Backtest.TradeRecord.Close: the trade id is the index of the entering tick, where the program draws a UUID.
- BarAggregation.AggregateBars: the M15 pass-through and the M1 and M5 interpolation are not modelled; open times are taken as parsed, and every bar has a close time.
- MonteCarlo.RunMonteCarloOrderShuffle: the random generator is an arbitrary permutation per path, and the in-place shuffle is not modelled.
- Reconciliation.Reconcile: server positions are visited in ticket order, while the program visits them in the order of an unsorted query; detail texts are not modelled.
- ExecutionService.Service.ExecuteApprovedSignal: the signal's direction arrives as a side, not as text to be searched for BUY; audit rows and the symbol default are not modelled.
- TradingPipeline.Pipeline.ProcessTick: the stages before execution arrive as their outcome, and the candidate-signal row and events are not modelled.
- AgentCommands.Queue.ClaimPendingCommands: the select takes no row lock in the program; that a claim is atomic is an assumption of the model.
- AgentCommands.Queue.CreateCommand: upper-casing covers ASCII letters, and JSON serialisation of payloads and results never fails.
- AgentResults.ResultHandler.RecordExecutionResult: stored reports keep their command here, where the program leaves that column empty; profit, symbol and deal columns are not modelled.
- StrategyGate.StrategyEngine.Evaluate: the last closed candle and the other gates are inputs; display-only fields of the engine state and publishing a new risk-configuration version are not modelled.
- SignalPipeline.ProposalsSound: the pipeline configuration holds the values after the program has filled in defaults for missing or zero ones; the minimum reward-to-risk setting is not used by the program and not modelled.
- RiskEngine: a sizing policy injected by a caller, and risk-state labels beside the verdict.
- Structure: the equal-level tolerance, which only chooses between two neutral outcomes.
- FastAPI routes, authentication, SQLAlchemy sessions, Redis caching, WebSocket transport, news fetching, audit and log text.
- Walk-forward splitting, sensitivity sweeps and the synthetic tick generator.
- Licensing, password reset, broker-name and cent normalisation, health endpoints, the frontend and the MQL5 agent.
