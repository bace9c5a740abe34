# A verified model of the trading core

A Dafny model of a crypto trading system that evaluates a daily strategy, backtests it, and runs it on paper
against live market data. It covers the parts in which mistakes are costly and hard to see:

- **Candles** (`Timeframes`, `Candles`, `Gaps`, `Aggregation`, `Repository`, `Ingest`, `Bundle`, `Catalog`): calendar
  arithmetic over UTC days, Monday weeks and Gregorian months; validation, gap detection and complete-bucket
  aggregation; a candle store that finalises each candle once; the bundle of closed candles a strategy may see, and what
  its quality report says (`Reports`).
- **The backtester** (`Stops`, `Ratios`, `RatioLaws`, `Metrics`, `OrderedDict`, `Backtest`, `BacktestSafety`,
  `BacktestTrades`, `BacktestSteps`, `BacktestDays`, `LookAhead`, `BacktestEngine`, `BacktestResults`): one trading day
  as a function of the runtime state, the engine of nested loops that refines it, what every trade earns, conservation
  of money, intent discipline, and the absence of look-ahead as a property of two runs.
- **The market-event bridge** (`Scheduler`, `Bridge`, `BridgeSafety`, `Detector`, `Fairness`, `BridgeRuns`,
  `BridgeFrames`, `BridgeAttempts`, `BridgeSharing`, `BridgeCloses`, `BridgeOutcomes`, `BridgePolls`, `BridgeEngine`):
  keyed scheduler runs, savepoints, recovery attempts, the rotating poll, and the commit that comes before any
  acknowledgement, over all interleavings of polls, rollbacks, restarts and recoveries.
- **Startup recovery** (`Recovery`, `RecoverySafety`, `RecoveryIssues`, `RecoveryEngine`, `RecoveryReady`): consistency
  checks, the repair pass, and the decision whether the runtime may become ready.

Code that changes state is modelled by classes and methods with loops. Each is proved equal to a function of the
old state, and the theorems are proved of those functions, over every input, every run and every reachable store.

`dafny verify dfyconfig.toml` checks the whole project.

## What the code does that its documentation does not say

Each of these is proved, with the exact condition where there is one.

- The scheduler's own jobs are keyed by name and time, not by symbol. When the opens of two symbols share a time,
  the second is acknowledged without any handler having run for it (`BridgeSharing.SecondSymbolRunsNothing`,
  `BridgeSharing.TwoOpensRunOnce`).
- The intraday stop is keyed by the candle's open, so of a day's live updates it is run for the first alone, whichever
  symbol that is of (`BridgeSharing.OnlyFirstUpdateIsChecked`), and sees that symbol only. The live watch of a symbol
  therefore misses the exit of the batch check exactly if the stop lies between the final low and the open, and the first
  update of that time is another symbol's or has a low above the stop (`BridgeSharing.LiveWatchMissesExit`,
  `BridgeSharing.OtherSymbolComesFirst`).
- An operator's recovery of a failed daily close creates an attempt that no poll ever ends; its row stays as created
  until a restart marks it failed (`BridgeRuns.CloseAttemptNeverEnds`, reached in
  `BridgeAttempts.CloseAttemptStaysRunning`). Weekly and monthly closes never fail, so there is nothing to recover in
  them (`BridgeAttempts.AttemptsAreOfDays`).
- One failed daily open can be recovered twice. A poll ends the active attempt alone and leaves the other running
  (`BridgeAttempts.PollEndsIff`, `BridgeAttempts.OlderAttemptWaits`). Polls of its own event, as the detector yields it,
  can end a running attempt exactly if it is at a daily open that its tracker has neither acknowledged nor given up on
  (`BridgeAttempts.EndsByOwnPollsIff`).
- Giving up on a live update raises after the commit, and the events after it in the list are not given up on
  (`BridgeRuns.GiveUpStopsAtLive`). A poll does so exactly if it gets to a live update whose row holds a permanent
  failure nobody recovers or whose symbol is misconfigured, which can be seen before the poll
  (`BridgeRuns.PollRaisesIff`, `BridgeFrames.PollRaisesIffBefore`); `BridgeRuns.GivingUpIsCutShort` is an instance.
- The retry delay never exceeds sixteen seconds; its limit of thirty cannot be reached (`Fairness.BackoffDoubles`).
- A backtest without any daily candle reports no processed ids, even if it started with some
  (`BacktestResults.ProcessedIdsComplete`).
- A recovery may end READY with a stale heartbeat among its issues, even if the clock advances by less than the
  threshold (`RecoveryEngine.HeartbeatGoesStale`, `RecoveryEngine.ReadyIsCleanIff`).
- A weekly or monthly series that ends early is still VALID: only days are checked up to the evaluation time
  (`Bundle.ReportValidIff`).
- A finalised candle can be overwritten by a write evaluated before its own close (`Repository.OverwritesFinalised`).
- The direct ingest path accepts candles off their canonical period: days at any hour, weeks from any time of a Monday,
  months from any time of the first hour (`Ingest.OffMidnightAccepted`). It keeps the store canonical exactly if every
  candle it accepts opens at midnight (`Ingest.MidnightDecides`, `Ingest.DirectKeepsSoundIff`).
- Gap detection raises on a weekly series in which a candle that opens on no Monday has room for a week after it
  (`Gaps.DetectRaisesIff`).

## Model

| member | source | states |
|---|---|---|
| `Timeframes.NextOpenIsLater` | services/market_data/timeframes.py:66-76 | Stepping to the next open always moves forward, in days, weeks and Gregorian months, so every loop that steps a cursor this way ends |
| `Timeframes.PeriodSteps` | services/market_data/timeframes.py:55-76 | From the open of the i-th period, next open and expected close are the open of period i + 1 and the close of period i, leap years and month lengths included |
| `Timeframes.CanonicalOpenIsPeriodOpen` | services/market_data/normalize.py:21-34 | The canonical open of any provider timestamp is the open of the one period that contains it |
| `Timeframes.PeriodContains` | services/market_data/timeframes.py:16-63 | Every time lies in exactly one day, Monday week and calendar month, at or before its close |
| `Timeframes.DaysBeforeYear` | services/market_data/timeframes.py:40-52 | The month table used throughout agrees with the closed Gregorian formula 365 n + leap days |
| `Candles.StructureCodesEmpty` | services/market_data/validation.py:44-78 | A candle has no structure code exactly if its prices are positive and enclosed by low and high, its volume is not negative and its close is the expected one |
| `Candles.ValidateSeries` | services/market_data/validation.py:145-254 | The validation loop, with its seen-set and previous candle, computes the report defined for the sorted series, and raises exactly if some candle opens no period |
| `Candles.ValidSeries` | services/market_data/validation.py:145-254 | A series is VALID exactly if it is non-empty, sorted, made of acceptable non-overlapping candles of its symbol and timeframe, and free of gaps and conflicts |
| `Candles.SortAppend` | services/market_data/validation.py:113-114 | The stable sort by open time is a fold of insertions: a sorted prefix may be sorted first |
| `Gaps.DetectGaps` | services/market_data/gaps.py:12-56 | The nested cursor loops, on any candles, compute the gaps their cursor walks through, or raise where it comes to an open that starts no period, and end |
| `Gaps.AlignedIsDetected` | services/market_data/gaps.py:23-54 | On candles that open their periods the detector does not raise, and what its cursor walks through are the periods between them |
| `Gaps.DetectRaisesIff` | services/market_data/gaps.py:23-54 | The detector raises exactly for a weekly series in which a candle that opens on no Monday has room for a week after it |
| `Gaps.GapsExact` | services/market_data/gaps.py:23-54 | The reported gaps are precisely the missing period opens between the first candle and the evaluation time, each once and in order |
| `Gaps.NoGapsIff` | services/market_data/gaps.py:23-54 | No gap is reported exactly if no open is missing |
| `Gaps.BackfillClosesGaps` | services/market_data/gaps.py:23-54 | Storing a candle at every reported open leaves nothing to report |
| `Gaps.GapFreeSeries` | services/market_data/gaps.py:23-54 | A strictly sorted series has no gap exactly if its opens step by the next open and the period after the last has not closed |
| `Aggregation.AggregateWeekly` | services/market_data/aggregation.py:76-108 | The weekly loop, a cursor over Monday weeks, computes the aggregates defined period by period |
| `Aggregation.AggregateMonthly` | services/market_data/aggregation.py:111-145 | The monthly loop computes the aggregates defined period by period |
| `Aggregation.MonthDayRange` | services/market_data/aggregation.py:65-73 | Stepping midnight by midnight to the last day yields exactly the days of the month |
| `Aggregation.AggregateOneIff` | services/market_data/aggregation.py:21-58 | A bucket yields an aggregate exactly if its period has closed and every one of its days is present |
| `Aggregation.AggregateExact` | services/market_data/aggregation.py:76-145 | The result lists a period exactly if it is closed and complete |
| `Aggregation.AggregateMeaning` | services/market_data/aggregation.py:21-58 | Every aggregate has the first open, last close, highest high, lowest low and summed volume of the days of one closed period |
| `Aggregation.AggregateSorted` | services/market_data/aggregation.py:76-145 | Aggregates come in strict order of open time, whatever order the daily candles come in |
| `Aggregation.AggregateWellFormed` | services/market_data/aggregation.py:21-58 | Aggregates of structurally valid daily candles are structurally valid |
| `Aggregation.AggregateGrows` | services/market_data/aggregation.py:76-145 | The result at an earlier evaluation time is a prefix of the result at a later one |
| `Repository.CandleRepository.constructor` | services/market_data/repository.py:20-29 | A new repository stores nothing and has no conflict |
| `Repository.CandleRepository.Upsert` | services/market_data/repository.py:31-48 | History is insert-or-ignore: the first candle of a key stays, a differing later one becomes a conflict |
| `Repository.CandleRepository.UpsertLive` | services/market_data/repository.py:50-81 | The live upsert does what the policy says, case by case in `Repository.LiveFinalises` and `Repository.LiveUpdatesUntilClose`, and reports the conflict it records |
| `Repository.CandleRepository.UpsertMany` | services/market_data/repository.py:83-95 | A batch is the fold of single upserts; inserted count and conflicts are exactly what it added |
| `Repository.CandleRepository.GetRange` | services/market_data/repository.py:97-114 | A range query answers exactly the matching stored candles, sorted by open |
| `Repository.CandleRepository.GetLatest` | services/market_data/repository.py:116-122 | The latest candle is the stored one with the greatest open, or none if the series is empty |
| `Repository.CandleRepository.GetClosedBefore` | services/market_data/repository.py:124-134 | Answers exactly the candles whose close time has passed, whatever their closed flag |
| `Repository.ClosedSeriesUnique` | services/market_data/repository.py:124-134 | That answer depends on nothing but the closed candles of the series |
| `Repository.FinaliseOnce` | services/market_data/repository.py:31-95 | Over any run of writes with non-decreasing times a candle flagged closed never changes, and each later differing candle of its key appends exactly one conflict, in order |
| `Repository.OverwritesFinalised` | services/market_data/repository.py:50-81 | A finalised candle is overwritten exactly if a differing candle comes with an evaluation time before its close |
| `Repository.NewKeyIsStored` | services/market_data/repository.py:31-62 | The first candle of a key is stored, by either path, and is no conflict |
| `Repository.LiveFinalises` | services/market_data/repository.py:70-75 | If the stored candle of a key is open, a closed one that comes live replaces it whatever the time, and the conflicts are unchanged |
| `Repository.LiveUpdatesUntilClose` | services/market_data/repository.py:63-81 | An open candle replaces a stored open one until that one's close; from then on a differing one is a conflict and the stored one stays |
| `Repository.HistoryKeeps` | services/market_data/repository.py:31-48 | History never replaces a candle: a differing one is one conflict, the same one nothing |
| `Repository.FirstClosedLiveStays` | services/market_data/repository.py:50-81 | Over any timely run of writes that starts with a key open or absent, the first closed candle of the key that comes live is the stored one from then on |
| `Ingest.NormalizedIsCanonical` | services/market_data/normalize.py:21-54 | A normalised candle lies on its canonical period, has its expected close, is flagged closed only after it, and keeps the provider timestamp's period |
| `Ingest.NormalizeIdempotent` | services/market_data/normalize.py:37-54 | Normalising from the canonical open gives the same candle again |
| `Ingest.NormalizeKeeps` | services/market_data/normalize.py:37-54 | Normalising changes no price, volume, symbol or timeframe; the candle is closed exactly if the payload says so and its period has ended |
| `Ingest.IngestNormalized` | services/market_data/ingest.py:24-67 | The loop stores what its specification stores and accounts for every candle once: inserted, identical, rejected or conflicting; it raises exactly if some candle opens no period, and then keeps what it stored by then |
| `Ingest.IngestLiveRaw` | services/market_data/ingest.py:70-115 | The same for the live path, with its normalisation and live upserts |
| `Ingest.IngestRawBatch` | services/market_data/ingest.py:118-126 | A raw batch is filtered, normalised and ingested as history |
| `Ingest.PassesIff` | services/market_data/validation.py:26-78 | A payload is refused exactly for a negative volume or prices that are not positive or not enclosed by low and high |
| `Ingest.LivePayloadIs` | services/market_data/ingest.py:70-115 | A refused payload changes nothing; one that passes is stored if its key is new or held open and finalised by it or not past its close; held closed it stays, unless it has yet to close |
| `Ingest.ClosedPayloadStays` | services/market_data/ingest.py:70-115 | The first closed payload of a key that passes in a live call is the candle of that key when the call ends |
| `Ingest.BatchStoresFirst` | services/market_data/ingest.py:24-67 | History stores the first well-formed candle of a new key and never touches a known key |
| `Ingest.ReachableIsSound` | services/market_data/ingest.py:70-126 | After any history of raw ingests every stored candle sits under its own key, on its canonical period, and is structurally valid |
| `Ingest.DailiesCloseWithTheDay` | services/market_data/ingest.py:70-126 | After any such history every stored daily candle closes with the last second of the day it opens on |
| `Ingest.ReachableSeriesValid` | services/market_data/validation.py:145-254 | A series read back from any such store is VALID exactly if it is non-empty, conflict-free and steps by the next open up to the last period closed at the evaluation time |
| `Ingest.FinalisedForever` | services/market_data/ingest.py:70-126 | Over any history of ingest calls with non-decreasing times, a candle stored as closed is the same candle ever after |
| `Ingest.MidnightDecides` | services/market_data/ingest.py:24-67 | A candle the direct path accepts lies on its canonical period exactly if it opens at midnight |
| `Ingest.DirectKeepsSoundIff` | services/market_data/ingest.py:24-67 | The direct path keeps a store of canonical, well-formed candles so exactly if every candle it accepts opens at midnight |
| `Ingest.NoonCandleAccepted` | services/market_data/ingest.py:24-67 | An instance: a daily candle opening at noon is accepted and stored off its canonical period |
| `Ingest.OffMidnightAccepted` | services/market_data/ingest.py:24-67 | Instances in every timeframe: a day from noon, a week from a Monday noon and a month from half past midnight get in and leave the store off its periods |
| `Bundle.Merge` | services/market_data/merge_policy.py:17-42 | The merge loop over a dictionary by open time answers, for any two lists, the candle that holds each open: the last native one of the symbol and timeframe, else the first aggregate; each differing aggregate becomes a conflict with what is held |
| `Bundle.MergedSeries` | services/market_data/merge_policy.py:17-42 | On two series with one candle per open that is the sorted union of the native candles and the unmatched aggregates |
| `Bundle.MergeExact` | services/market_data/merge_policy.py:17-42 | The merge holds every native candle, and an aggregate only where there is no native one |
| `Bundle.ResolveHigherTimeframe` | services/market_data/bundle.py:93-116 | Higher timeframes are native candles merged with complete aggregates of whatever daily candles there are, or native alone |
| `Bundle.BuildReport` | services/market_data/bundle.py:140-250 | Of any candles a timeframe's report validates them against the gaps up to its check time; it raises exactly if gap detection or validation does |
| `Bundle.GetStrategyBundle` | services/market_data/bundle.py:140-250 | The bundle built from any repository is the one assembled from its closed candles and conflicts, or raises if one of the three reports does |
| `Bundle.ReachableIsAssembled` | services/market_data/bundle.py:140-250 | After any history of raw ingests the bundle never raises, and is the one the theorems below speak of |
| `Bundle.BundleSeesOnlyThePast` | services/market_data/bundle.py:140-250 | Two repositories that agree on the candles closed by the evaluation time and on conflicts give the same bundle, or raise alike |
| `Bundle.ReportValidIff` | services/market_data/bundle.py:76-90 | A timeframe is VALID exactly if it is non-empty, conflict-free and without a hole and, for days only, lacks no day closed since its last candle |
| `Bundle.UsableIff` | services/market_data/bundle.py:29-63 | A bundle is usable exactly if every timeframe is in order and long enough |
| `Bundle.UsableBundle` | services/market_data/bundle.py:119-250 | A usable bundle with positive minimums holds in each timeframe exactly the last minimum closed, contiguous, conflict-free candles |
| `Reports.CodesAre` | services/market_data/validation.py:145-254 | A non-empty series carries a reason code exactly if one of its candles, its order, a hole or a conflict calls for it, each code spelled out, and MD_VALID alone if nothing does |
| `Reports.StatusIs` | services/market_data/validation.py:218-254 | An empty series is INCOMPLETE; another one exactly if it has a hole and no malformed, repeated or conflicting candle; it is VALID exactly if no code is called for |
| `Reports.ReportTells` | services/market_data/validation.py:218-254 | A report names a latest candle, the open expected after it, and the open and close of every hole |
| `Reports.ConflictsAre` | services/market_data/bundle.py:66-116 | A timeframe answers for exactly the recorded conflicts of its symbol and timeframe and for each complete aggregate that differs from the native candle of its open |
| `Reports.BundleStatusIs` | services/market_data/bundle.py:29-63 | A bundle is INVALID if a timeframe is; failing that, VALID if all three are and there is history enough; INCOMPLETE otherwise |
| `Reports.BundleTells` | services/market_data/bundle.py:29-63 | It carries the holes and conflicts of all three timeframes, the latest candle of the months, and their codes, with MD_INCOMPLETE if there is too little history |
| `Catalog.DatasetCatalog.AppendCandles` | services/market_data/dataset_catalog.py:88-123 | Appending to a published dataset stores the appended candles and conflicts and touches no other dataset; an unpublished one is refused |
| `Catalog.Absorb` | services/market_data/dataset_catalog.py:95-118 | The append loop adds candles of new keys and records differing candles of known keys |
| `Catalog.ChunkingIndependent` | services/market_data/dataset_catalog.py:88-123 | Appending in two parts gives the stored sequence, the conflict sequence and the total of appending whole |
| `Catalog.AnySplit` | services/market_data/dataset_catalog.py:88-123 | The same for any split into any number of parts |
| `Catalog.ReappendIsNoOp` | services/market_data/dataset_catalog.py:88-123 | Appending what is stored, whole or in part, adds nothing and records no conflict |
| `Catalog.AppendMeans` | services/market_data/dataset_catalog.py:95-118 | A known key keeps its candle; a new key holds the first candle of the batch with that key |
| `Catalog.AppendRecords` | services/market_data/dataset_catalog.py:95-123 | An append records one conflict, in batch order, for each candle that differs from the one its key ends up with, and returns by how many candles the dataset grew |
| `Catalog.AppendKeepsKeys` | services/market_data/dataset_catalog.py:118-123 | A dataset keeps one candle per key, in order of open time |
| `Stops.StreamingMatchesBatch` | services/backtester/paper_lifecycle.py:193-243 | An ideal watcher, which checks the gap at the open and the intraday stop on every preview of a falling low, exits exactly if the batch check on the closed bar does, at the same reference and for the same reason |
| `Stops.MissedExit` | services/backtester/paper_lifecycle.py:204-243 | A watcher that sees only some previews misses the exit exactly if the stop lies between the final low and every low seen, and at or below the open |
| `Stops.TrailNeverLowers` | services/strategy_engine/stops.py:58-85 | An update of the trailing stop never lowers a stop, although it rounds down to the tick |
| `Stops.InitialStopIs` | services/strategy_engine/stops.py:10-32 | The initial stop lies its multiple of the range below the entry, rounded to the tick towards zero |
| `Stops.TrailStarts` | services/strategy_engine/stops.py:35-55 | A new position starts with the entry as its highest close, its trail at the higher of the initial stop and its distance below the entry, and the higher of both as effective stop |
| `Stops.TrailFollows` | services/strategy_engine/stops.py:58-85 | An update takes the higher of highest close and close, and moves the trail to the highest of itself, the initial stop and its distance below the highest close, rounded to the tick; the effective stop is the higher of trail and initial stop |
| `Metrics.DrawdownCurve` | services/backtester/metrics.py:27-41 | The running-peak loop computes the drawdown curve |
| `Metrics.MaxDrawdownExact` | services/backtester/metrics.py:104-105 | For positive equities the one-pass maximum drawdown is the maximum of (E_i - E_j) / E_i over all i <= j |
| `Metrics.Streaks` | services/backtester/metrics.py:49-202 | The streak loop computes the longest winning and losing runs |
| `Metrics.LongestRunExact` | services/backtester/metrics.py:49-202 | A streak is the length of a longest block of consecutive wins, or losses |
| `Metrics.BreakdownTotals` | services/backtester/metrics.py:147-163 | The per-symbol counts and profits add up to the totals |
| `Metrics.ComputeMetrics` | services/backtester/metrics.py:49-202 | The metrics of a run: trade count, ratios, maximum drawdown, streaks and the breakdowns by symbol and entry type, with the loops of the source |
| `Metrics.SummaryAddsUp` | services/backtester/metrics.py:147-183 | The breakdowns by symbol and by entry type have the counts and profits of all trades; the former lists each traded symbol once, in alphabetical order |
| `Ratios.ExpectancyDecomposes` | services/backtester/metrics.py:61-83 | The expectancy is the net result per trade and the profit factor the gross profit per gross loss; expectancy is the win rate times the average winner plus the loss rate times the average loser |
| `RatioLaws.ReturnsCompound` | services/backtester/metrics.py:117-122 | The daily returns of a curve that stays positive compound to its last point |
| `RatioLaws.TotalReturnIs` | services/backtester/metrics.py:85 | The last capital is the first and the total return on it; there is one exactly if the first is not zero |
| `RatioLaws.GrowthCompounds` | services/backtester/metrics.py:86-102 | The yearly growth, kept up over the years between the first day and the last, leads from the first capital to the last; there is one exactly if both are positive and a whole day lies between |
| `RatioLaws.SharpeIs` | services/backtester/metrics.py:124-132 | There is a Sharpe ratio exactly if two returns differ; its square times the squared distances of the returns from their mean is 252 squared means for each return, and it has the sign of the mean |
| `RatioLaws.SortinoIs` | services/backtester/metrics.py:133-137 | There is a Sortino ratio exactly if there are two returns and a loss; the same holds of it with the squared losses |
| `RatioLaws.RatesAre` | services/backtester/metrics.py:59-142 | The win rate counts the trades with a profit among all, the time in market the days with an open position |
| `RatioLaws.BreakdownRates` | services/backtester/metrics.py:158-191 | Each entry of the two breakdowns counts the trades of its symbol or entry type, and its rate those of them with a profit |
| `RatioLaws.MultiplesAverage` | services/backtester/metrics.py:71-73 | The average multiple of the risk and the expectancy in multiples are over the trades that have one |
| `BacktestSafety.RunKeepsInv` | services/backtester/engine.py:94-183 | After any days of any run: cash is the stake plus closed net profits less what open trades have cost, fee, funding and slippage totals add up, positions and open trades share their symbols, no symbol has two pending intents or an intent beside a position, every intent id is used at most once, and recorded stops only rise |
| `BacktestSafety.PhaseOneInv` | services/backtester/engine.py:125-167 | Each step of a day keeps all of this |
| `BacktestSafety.EndCapitalIsLastEquity` | services/backtester/engine.py:171-194 | The closing equity is the equity of the last snapshot |
| `BacktestTrades.TradesExplained` | services/backtester/engine.py:278-492 | After any days of any run every trade is explained by the bars of its entry and its exit: its fills, fees and slippage, its stop at entry, why and at what price it was left, gross result as quantity times the difference of the fills, net result as gross less fees and funding, and the multiple of its risk; every position agrees with its open trade |
| `BacktestTrades.ClosedTradeExplained` | services/backtester/paper_lifecycle.py:246-267 | A trade that is closed on a bar is left at the open below the stop or else at the stop, at that price less slippage, and earns quantity times the difference of its fills |
| `BacktestSteps.SlippageCosts` | services/backtester/execution.py:10-17 | For slippage between nothing and everything and a price that is not negative, exit fill, price and entry fill are in that order |
| `BacktestSteps.ExitKeepsValue` | services/backtester/engine.py:419-492 | Leaving a position changes cash plus open profit, that position marked at the fill, by the exit fee on the notional and nothing else |
| `BacktestSteps.EntryKeepsValue` | services/backtester/engine.py:330-417 | Entering one changes it by the entry fee and nothing else |
| `BacktestSteps.EquityFromFills` | services/backtester/engine.py:184-194 | The closing equity of a run is its stake, plus quantity times price difference of every closed trade's two fills and of every open position to the last close, less all fees and funding |
| `BacktestSteps.FillDecides` | services/backtester/engine.py:278-417 | An intent that is due is put to the risk engine once, with equity, free margin, positions and orders at the open; a quantity it approves is filled if cash covers the entry fee, anything else refused with its codes |
| `BacktestSteps.StopsAreTaken` | services/backtester/engine.py:419-492 | After the stop pass of a day no position is open whose bar opened below its stop or reached it |
| `BacktestSteps.DayKeepsStops` | services/backtester/engine.py:118-183 | A day ends with the positions that filling and stopping out leave: nothing is entered or left later in it |
| `BacktestSteps.RunActsOnThePast` | services/backtester/engine.py:118-183 | On every day of every run a trade is left at the stop it had when the day began, with the funding it had paid by then, or on the day it was entered; and a new trade comes from an intent that waited when the day began |
| `BacktestSteps.FundingIs` | services/backtester/engine.py:494-538 | A position with a bar pays, on its size at entry, the assumed rate once or the rates of the events of the day; any other pays nothing |
| `BacktestSteps.FundingEventsAre` | services/backtester/engine.py:520-538 | The events of a day are those of the symbol from the open of its bar to its close |
| `BacktestSteps.EvaluationIs` | services/backtester/engine.py:540-599 | The strategy is asked once for a symbol with a bar; its entry signal is queued exactly if it is complete, new, and the symbol has neither a position nor a waiting intent |
| `BacktestSteps.SlicesAre` | services/backtester/engine.py:550-566 | A candle is shown to the strategy exactly if it is flagged closed and its close time has come |
| `BacktestSteps.TrailingIs` | services/backtester/engine.py:601-654 | The levels of a position with a bar and a history follow the close of the bar by the range of the latest evaluation, and are noted |
| `BacktestSteps.EntryStops` | services/backtester/engine.py:345-417 | A position is entered with the fill as its highest close and the stops that start from it, which are the first point of its trail |
| `BacktestSteps.DaySees` | services/backtester/engine.py:94-130 | A day sees, of each configured symbol, the candle its daily series holds for that open, and the close of the latest candle before |
| `BacktestSteps.DayIsTimed` | services/backtester/engine.py:118-183 | A day's snapshot and trail points are timed five seconds after the close of the bar of the first symbol that has one |
| `BacktestSteps.HistoryIs` | services/backtester/engine.py:601-625 | Stops are moved for the symbols with a bar and a daily candle closed by the time of the day |
| `BacktestDays.DayComesTo` | services/backtester/engine.py:118-183 | A day charges, if funding is on, the positions it ends with, each by its size at entry; asks the strategy once about each symbol with a bar, in order; and records cash, equity at the closes, open profit, the number of positions and the peak |
| `BacktestDays.DayMovesStops` | services/backtester/engine.py:160-183 | Every position a day ends with that has a bar and a history has had its stops moved by the close of that bar, after the strategy was asked; sizes and prices stay as the stop pass left them |
| `BacktestResults.EndCapitalExplained` | services/backtester/engine.py:185-194 | Closing equity is the stake, plus closed profits, less open costs, plus open positions at the last closes |
| `BacktestResults.TotalsAddUp` | services/backtester/engine.py:196-242 | The reported fees, funding and slippage are the sums over all reported trades |
| `BacktestResults.ReportedDrawdown` | services/backtester/engine.py:196-207 | For a run whose equity stays positive, the reported maximum drawdown is the largest relative loss between any two snapshots of the reported curve |
| `BacktestResults.ReportedStreaks` | services/backtester/engine.py:196-207 | The reported streaks are the longest blocks of consecutive wins and losses among the closed trades of the run |
| `BacktestResults.ReportedGrowth` | services/backtester/engine.py:184-207 | The reported total return leads from the stake to the closing equity, the reported yearly growth does over the years between the first day and the last, and the time in market counts the snapshots with an open position |
| `BacktestResults.MetricsSeeTrades` | services/backtester/engine.py:196-207 | The metrics of a run are taken over its closed trades, each once and in the order they were closed, with their net results, entry types and multiples, and over its curve |
| `BacktestResults.ReportedCosts` | services/backtester/engine.py:196-242 | The costs in the metrics are the totals of the result |
| `BacktestResults.EmptyRun` | services/backtester/engine.py:656-696 | A run without a day reports its stake untouched, no trade, position, snapshot or cost, and no growth |
| `BacktestResults.BreakdownExplainsEquity` | services/backtester/engine.py:184-207 | Closing equity is the stake, plus the per-symbol profits of the metrics, less the costs of open trades, plus the open positions at the last closes |
| `BacktestResults.ExpectancyExplainsEquity` | services/backtester/engine.py:184-207 | The reported expectancy times the number of closed trades, and the sum of either breakdown, is what the closed trades of the run earned |
| `BacktestResults.IdsAreDistinct` | services/backtester/engine.py:260-276 | Every reported trade and rejection has an intent id of its own, none of them an initial one |
| `BacktestResults.ProcessedIdsComplete` | services/backtester/engine.py:656-696 | The reported processed ids are the initial ones plus the used ones exactly if there is a timeline or no initial id |
| `LookAhead.NoLookAhead` | services/backtester/engine.py:94-183 | Two bundles that agree on what is known by a day's evaluation time give the same days and the same state through that day |
| `LookAhead.TruncatedRunIsPrefix` | services/backtester/engine.py:94-183 | A run on data cut off after a day is a prefix of the full run |
| `LookAhead.CanonicalDailiesSplit` | services/backtester/data.py:28-30 | Daily candles on UTC days meet the condition of the two theorems at every day |
| `LookAhead.FillsSeeOnlyOpens` | services/backtester/portfolio.py:23-43 | Filling at the open depends on the day's opens and earlier closes only, never on its highs, lows or closes |
| `LookAhead.BarBeforePast` | services/backtester/portfolio.py:163-178 | The prior close of a day is not affected by later candles |
| `LookAhead.DailySlice` | services/backtester/data.py:10-15 | The closed slice at a time is not affected by candles opening later |
| `BacktestEngine.BuildTimeline` | services/backtester/engine.py:244-253 | The timeline is every daily open of a configured symbol, once, in order |
| `BacktestEngine.IndexByOpen` | services/backtester/engine.py:113-116 | The dictionary by open time holds the last candle of each open |
| `BacktestEngine.PriorClose` | services/backtester/portfolio.py:163-178 | Scanning the keys in any order finds the latest open before the day |
| `BacktestEngine.UnrealizedPnl` | services/backtester/portfolio.py:50-58 | The loop computes the unrealised profit |
| `BacktestEngine.Engine.FillPendingAtOpen` | services/backtester/engine.py:278-417 | Fills, rejects or gaps out the intents of a symbol as specified |
| `BacktestEngine.Engine.CheckStopExit` | services/backtester/engine.py:419-492 | Closes a triggered position and its trade as specified; what the exit earns is in `BacktestTrades.TradesExplained` and `BacktestSteps.ExitKeepsValue` |
| `BacktestEngine.Engine.ApplyFunding` | services/backtester/engine.py:494-538 | Charges the assumed rate once, or each funding event within the candle |
| `BacktestEngine.Engine.StrategyAndQueue` | services/backtester/engine.py:540-599 | Evaluates on closed candles and queues at most one intent |
| `BacktestEngine.Engine.UpdateTrailing` | services/backtester/engine.py:601-654 | Raises the stop of an open position and records it |
| `BacktestEngine.Engine.RunDay` | services/backtester/engine.py:118-183 | One day is the five passes over the symbols and a snapshot |
| `BacktestEngine.Engine.Run` | services/backtester/engine.py:94-242 | A whole run goes through the days of the timeline and reports their state, metrics and warnings |
| `BacktestEngine.ValidateChronological` | services/backtester/data.py:33-46 | The loop notes each repeated, unsorted and unclosed candle of a series |
| `BacktestEngine.RunWarnsIff` | services/backtester/engine.py:98-106 | A run adds no warning to those its data came with exactly if every series of every configured symbol is in strict order and all closed |
| `Scheduler.RequireSuccessful` | services/paper_trading/scheduler_outcomes.py:40-47 | Raises nothing exactly if no outcome failed or is a retryable skip; otherwise the first such outcome decides |
| `Scheduler.RunVerdict` | services/paper_trading/scheduler_outcomes.py:20-37 | A job that was run is neither failed nor deferred exactly if its row is completed, the lock taken and the scheduler enabled |
| `Scheduler.Repository.InsertOrGet` | services/paper_trading/repository.py:411-444 | Inserts a running row unless the key has one |
| `Scheduler.Repository.Complete` | services/paper_trading/repository.py:548-576 | Sets status and error of a row and nothing else |
| `Scheduler.Repository.Release` | services/paper_trading/market_events.py:856-881 | A recovery attempt is marked skipped, another running row is deleted, anything else is left |
| `Scheduler.Repository.FailOrphans` | services/paper_trading/repository.py:985-1000 | Every running row becomes failed and no other row changes |
| `Scheduler.JobScheduler.RunKeyed` | services/paper_trading/scheduler.py:304-374 | Runs a handler unless its key is completed or running, and completes or fails the row |
| `BridgeSafety.SubjobKeeps` | services/paper_trading/market_events.py:1249-1275 | A phase that does not raise ends completed, touches only its own row and its job's, and leaves nothing running |
| `BridgeSafety.HandleOpenKeeps` | services/paper_trading/market_events.py:1284-1331 | A daily open, whether or not it raises, keeps fill and snapshot together and after the gap stop; if it does not raise, all three are completed; a failed phase is not completed at the restored savepoint |
| `BridgeSafety.ConcludeOpenKeeps` | services/paper_trading/market_events.py:983-1069 | However a daily open ends, completed rows stay completed, including under the unguarded failure marking, and its row is not left running |
| `BridgeSafety.ConcludeRecoveryKeeps` | services/paper_trading/market_events.py:1071-1172 | The same for the recovery of a permanently failed open; on success the attempt is completed and the original row, if it is there, resolved |
| `BridgeSafety.EventAdvances` | services/paper_trading/market_events.py:901-1172 | Processing any event in any circumstances keeps the store sound, completed rows completed and successes logged once, leaves no new row running, and an event to be acknowledged has earned it |
| `BridgeSafety.BatchAdvances` | services/paper_trading/market_events.py:441-541 | The same for a whole poll: what is to be acknowledged has been earned in its final store |
| `BridgeRuns.AcknowledgedOpensAreComplete` | services/paper_trading/application.py:454-476 | After any interleaving of committed polls, rollbacks, restarts and operator recoveries, an acknowledged daily open has its gap, fill and snapshot rows completed in the committed store, and the three jobs of that time have succeeded exactly once |
| `BridgeCloses.AcknowledgedClosesAreComplete` | services/paper_trading/market_events.py:1350-1371 | After any such history a daily close the tracker has acknowledged has signal evaluation, stop update and snapshot completed in the committed store for its candle's close, each with exactly one success |
| `BridgeCloses.CloseRunsTheMissing` | services/paper_trading/scheduler.py:227-275 | An unobstructed daily close runs exactly those of signal evaluation, stop update and snapshot that have not succeeded for its candle's close, in that order |
| `BridgeCloses.CloseRunsAllThree` | services/paper_trading/scheduler.py:227-275 | A handler that fails keeps none of the three from running; the close raises the message of the first that failed, and nothing if none did |
| `BridgeCloses.CloseIsRun` | services/paper_trading/market_events.py:1350-1371 | An unobstructed close that is not completed is acknowledged with the missing ones of its three jobs run |
| `BridgeOutcomes.SameRowIff` | services/paper_trading/market_events.py:89-124 | Two events share a row exactly if they are of one kind, symbol and time and, as live updates, of one low |
| `BridgeOutcomes.HeldBackIsNoOp` | services/paper_trading/market_events.py:754-775 | An event whose candle is missing, context not ready, time not come or lock taken changes nothing in the store and is deferred |
| `BridgeOutcomes.NoFillBeforeItIsDue` | services/paper_trading/market_events.py:1284-1331 | Until a fill is due a daily open touches neither fill nor snapshot, neither their rows nor their jobs, and does not go through |
| `BridgeOutcomes.NotDueIsDeferred` | services/paper_trading/market_events.py:983-1031 | Such an open is deferred with its gap stop done and no row of its own left |
| `BridgeOutcomes.GapStopStays` | services/paper_trading/market_events.py:1284-1331 | Once its gap stop has gone through, an open that goes no further leaves the gap stop and its job completed and changes nothing else |
| `BridgeOutcomes.TurnedDownIsReleased` | services/paper_trading/market_events.py:1249-1275 | A phase the scheduler turns down leaves no row behind and no success |
| `BridgeOutcomes.FailingHandlerFails` | services/paper_trading/market_events.py:1249-1275 | A failing handler fails its phase of the open, with its message |
| `BridgeOutcomes.OpenFailureIsNoted` | services/paper_trading/market_events.py:983-1069 | A daily open that fails is noted as failed with the reason at its row, is not acknowledged, and is given up on exactly if its configuration is wrong for good |
| `BridgeOutcomes.OtherFailureIsNoted` | services/paper_trading/market_events.py:901-981 | The same for a live update or a daily close |
| `BridgeOutcomes.PhaseIsNoted` | services/paper_trading/market_events.py:777-795 | The phase that failed is noted too, and a completed open stays as it is |
| `BridgeOutcomes.RetriedUnlessPermanent` | services/paper_trading/market_events.py:669-689 | A failed event is turned away exactly if it failed with a permanent code that is neither resolved nor in recovery; any other live update or daily close that is not completed is handled again |
| `BridgeOutcomes.CommittedIsAcknowledged` | services/paper_trading/application.py:454-476 | What a committed poll has to acknowledge its tracker remembers, unless another acknowledgement of the poll overwrites it |
| `BridgeOutcomes.OnlyPermanentIsGivenUp` | services/paper_trading/market_events.py:578-593 | Nothing is given up on in a poll but events that failed for good in it |
| `BridgeOutcomes.PermanentIsGivenUp` | services/paper_trading/market_events.py:585-593 | An event that failed for good, with no live update before it in the list, is given up on |
| `BridgeRuns.SuccessOnce` | services/paper_trading/scheduler.py:304-374 | After any such history each scheduler job has succeeded exactly once for a time if its row is completed, and never otherwise |
| `BridgeRuns.PhasesInOrder` | services/paper_trading/market_events.py:1182-1204 | After any such history a completed open has its three phases completed, fill and snapshot are completed together, and after the gap stop |
| `BridgeRuns.CompletedForever` | services/paper_trading/market_events.py:691-708 | A row completed at some point of a history is completed at every later point |
| `BridgeRuns.NothingStuck` | services/paper_trading/market_events.py:754-775 | A committed poll that starts without a running row ends without one |
| `BridgeRuns.CloseAttemptNeverEnds` | services/paper_trading/market_events.py:934-981 | The row of a recovery attempt at a daily close is as it was created over any later history of polls, rollbacks, restarts and recoveries, until the first restart that fails what it finds running |
| `BridgeAttempts.CloseAttemptStaysRunning` | services/paper_trading/market_events.py:934-981 | An instance for every symbol and time: a misconfigured daily close fails, its recovery is accepted, and the attempt is left running by every later history without such a restart |
| `BridgeAttempts.AttemptsAreOfDays` | services/paper_trading/market_events.py:1206-1247 | After any history a weekly or monthly close that has a row is completed, attempts exist at daily opens and daily closes only, and nothing but an attempt is left running |
| `BridgeAttempts.ActiveAttemptEnds` | services/paper_trading/market_events.py:1071-1172 | A poll of a daily open ends its active attempt: completed with the original resolved, set aside so that it runs again when taken up, or failed with the reason, as its phases call for; the poll is told to acknowledge, to try again, or that it failed |
| `BridgeAttempts.AttemptEndsIffOpen` | services/paper_trading/market_events.py:901-1172 | Of the events at its row, a running active attempt is ended by a daily open and by nothing else, in any circumstances |
| `BridgeAttempts.EndsByOwnPollsIff` | services/paper_trading/market_events.py:441-541 | Polls of its own event that the detector yields, one event each, can end a running attempt of any reachable store exactly if it is at a daily open that its tracker has neither acknowledged nor given up on |
| `BridgeAttempts.PollEndsIff` | services/paper_trading/market_events.py:441-541 | A poll with one event a row ends a running attempt exactly if, before the poll, it is the active attempt of a daily open, and the poll gets to that open |
| `BridgeAttempts.OlderAttemptWaits` | services/paper_trading/market_events.py:595-667 | An instance: a failed open can be recovered twice, and a poll of it ends the second attempt and leaves the first one running |
| `BridgeFrames.PollFrame` | services/paper_trading/market_events.py:901-1172 | The events of a poll leave alone the row of every other event, the attempts at it and the memory of them |
| `BridgeRuns.LiveGivenUpIff` | services/paper_trading/market_events.py:901-981 | A live update is given up on exactly if its row holds a permanent failure nobody recovers, or is not completed while its candle is there and its symbol misconfigured |
| `BridgeRuns.PollRaisesIff` | services/paper_trading/application.py:454-476 | A committed poll raises after its commit exactly if it meets such a live update |
| `BridgeFrames.PollRaisesIffBefore` | services/paper_trading/application.py:454-476 | If its live updates have rows of their own, whether it meets one is decided by the store and the memory the poll starts from |
| `BridgeRuns.GiveUpStopsAtLive` | services/paper_trading/market_events.py:585-593 | Of the events to give up on, exactly those before the first live update are given up on |
| `BridgeRuns.GivingUpIsCutShort` | services/paper_trading/market_events.py:585-593 | An instance: after a misconfigured live update, another symbol's daily close fails permanently and no tracker learns of it |
| `BridgeRuns.AbortedMemory` | services/paper_trading/market_events.py:627-651 | However far a poll got before it was rolled back, the memory of attempts it leaves names uncompleted attempts of the committed store |
| `BridgeSharing.OpenRunsTheMissing` | services/paper_trading/scheduler.py:118-188 | An unobstructed daily open runs exactly those of the three jobs that have not succeeded for its time, for whichever symbol |
| `BridgeSharing.SecondSymbolRunsNothing` | services/paper_trading/scheduler.py:304-374 | An unobstructed fresh open is acknowledged without any handler running exactly if another symbol's open has run all three jobs of that time |
| `BridgeSharing.TwoOpensRunOnce` | services/paper_trading/scheduler.py:304-374 | From a fresh start the opens of two symbols at one time are both acknowledged, and the second adds nothing to the three jobs the first ran |
| `BridgeSharing.LiveStopRunsOncePerDay` | services/paper_trading/market_events.py:1333-1348 | A live update runs the intraday stop only if no update of that time has; otherwise it completes without it, whatever its low |
| `BridgeSharing.OnlyFirstUpdateIsChecked` | services/paper_trading/market_events.py:1333-1348 | From a fresh start, of any unobstructed live updates of one time, whatever their lows and symbols, all are acknowledged and the intraday stop is run for the first alone |
| `BridgeSharing.LiveWatchMissesExit` | services/paper_trading/stops.py:195-222 | So the live watch of a symbol's bar misses the exit of the batch check exactly if the stop lies between the final low and the open, and the first update of that time is another symbol's or has a low above the stop |
| `BridgeSharing.OtherSymbolComesFirst` | services/paper_trading/scheduler_context.py:259-271 | An instance: with another symbol's update first, an exit is missed however low the symbol's own updates go |
| `BridgeEngine.MarketEventBridge.constructor` | services/paper_trading/market_events.py:398-423 | A new bridge remembers no attempt |
| `BridgeEngine.MarketEventBridge.RunOpenSubjob` | services/paper_trading/market_events.py:1249-1275 | The phase runner does what its specification says to the store and raises what it says |
| `BridgeEngine.MarketEventBridge.HandleDailyOpen` | services/paper_trading/market_events.py:1284-1331 | The two savepoints restore exactly what the specification restores |
| `BridgeEngine.MarketEventBridge.ProcessEvent` | services/paper_trading/market_events.py:901-1172 | Processing an event has the specified effect on store and memory and the specified outcome |
| `BridgeEngine.MarketEventBridge.ProcessAfterPoll` | services/paper_trading/market_events.py:441-541 | A poll goes through the eligible groups from the cursor on within its budget, notes each outcome in the retry states and moves the cursor; it does nothing unless data, lock and session are ready |
| `BridgeEngine.MarketEventBridge.RecoverPermanentConfiguration` | services/paper_trading/market_events.py:595-625 | An operator's retry is accepted exactly for an unresolved permanent failure with a valid configuration, and creates the next attempt |
| `BridgePolls.PollIsCommit` | services/paper_trading/market_events.py:441-541 | Committing a poll, whatever groups it went through, is a move of the histories above |
| `BridgeEngine.PollLoop.ProcessCommittedPoll` | services/paper_trading/application.py:454-476 | A failed commit leaves store and trackers as they were; a successful one is exactly such a move, and raises after it exactly if the poll met a live update to be given up on; from a good store, and for distinct symbols, exactly if one of its live updates was to be given up on before the poll |
| `BridgePolls.EligibleGroupsNonEmpty` | services/paper_trading/event_fairness.py:53-91 | Eligible groups are never empty |
| `BridgePolls.DetectedPollIsApart` | services/paper_trading/market_events.py:441-541 | A poll of what the detector yields for distinct symbols processes at most one event a row, however it groups, rotates and defers |
| `Detector.MarketEventDetector.DetectCandidates` | services/paper_trading/market_events.py:200-381 | Detection lists the events of each symbol in turn, exactly those that `Detector.DetectedIff` says are due, and changes no tracker |
| `Detector.DetectedIff` | services/paper_trading/market_events.py:264-381 | An event is detected exactly if it is due: an open for an unclosed day neither acknowledged nor given up on, a live update for an acknowledged one with a new low, a close for a day, week or month that is flagged closed, whose close time, plus the delay for days, has come, and whose open is neither |
| `Detector.TrackerLearns` | services/paper_trading/market_events.py:211-257 | An acknowledged event is the latest acknowledged of its kind, with its low for opens and live updates, and clears what was given up on of that kind; giving up notes the open beside it; an operator's recovery takes just that note away; other kinds are not touched |
| `Detector.RecoveredIsDue` | services/paper_trading/market_events.py:232-257 | An event given up on is not due, and once recovered is due exactly as if it never had been given up on |
| `Detector.AcknowledgedIsQuiet` | services/paper_trading/market_events.py:211-230 | An acknowledged event is not detected again, whatever candles arrive and whatever the trackers are told in between, until an acknowledgement overwrites it: of another event of its kind and symbol or, for a live update, of an open with another low |
| `Detector.GivenUpIsQuiet` | services/paper_trading/market_events.py:232-244 | Nor is one given up on |
| `Detector.AllAcknowledgedIsQuiet` | services/paper_trading/market_events.py:264-381 | Once everything detected is acknowledged the same candles give nothing more |
| `Fairness.GroupingIsExact` | services/paper_trading/event_fairness.py:53-74 | Groups are those of the events, ordered and each once; an event is in its own group as often as detected, in symbol order, and in no other |
| `Fairness.OrderIs` | services/paper_trading/event_fairness.py:18-74 | Groups come by class, opens first and months last, then by time; within one BTC, ETH and SOL come first and other symbols follow by name |
| `Fairness.EligibleKeys` | services/paper_trading/event_fairness.py:77-91 | The loop keeps exactly the groups without a retry time in the future |
| `Fairness.BackoffDoubles` | services/paper_trading/event_fairness.py:94-97 | The delay doubles from one second and stays at sixteen; the limit of thirty is never reached |
| `Fairness.DeferredComesBack` | services/paper_trading/event_fairness.py:100-101 | A deferred group is not eligible at once, and is again sixteen seconds later at the latest |
| `BridgePolls.NotedIs` | services/paper_trading/market_events.py:543-576 | A group whose last outcome in a poll is deferred counts one deferral more than before the poll and waits for the delay of that count; a final one clears it; groups without an outcome keep their state |
| `Fairness.GroupRunIs` | services/paper_trading/market_events.py:486-541 | A group's turn attempts its events in order, up to and including the first that is deferred, or as many as the budget allows |
| `Fairness.PassRunIs` | services/paper_trading/market_events.py:486-541 | A poll stops early only when its budget is used up, so a deferral in one group never keeps it from the next, and knows whether anything was deferred |
| `Fairness.RoundMoves` | services/paper_trading/event_fairness.py:104-117 | A poll with budget turns to a group, and moves the cursor by one if it deferred, else by all it turned to |
| `Fairness.EveryGroupIsAttempted` | services/paper_trading/market_events.py:486-541 | While the same n groups are eligible, any n polls in a row attempt the first event of every group, whichever defer and wherever the cursor was |
| `RecoverySafety.RepairIsExact` | services/paper_trading/recovery.py:85-151 | Checked again at any later time, repaired tables give exactly the issues that may not be repaired, preceded by a stale heartbeat if there is one by then |
| `RecoverySafety.RepairsAreExact` | services/paper_trading/recovery.py:111-151 | A repair pass settles exactly the flagged orders, intents, runs and heartbeat and changes nothing else |
| `RecoverySafety.RepairListExact` | services/paper_trading/recovery.py:111-151 | A repair pass reports the number of orphans once, then a stale heartbeat and each flagged order and intent in the order of the issues, and nothing it did not do |
| `RecoverySafety.FlaggedIff` | services/paper_trading/recovery.py:382-454 | An intent, or its order, is flagged exactly if it can be repaired |
| `RecoverySafety.ChainHasPosition` | services/paper_trading/recovery.py:159-179 | An order that a repair fills has a position, so filling it raises no new issue |
| `RecoveryIssues.ReportedIff` | services/paper_trading/recovery.py:342-592 | An issue of any code is reported exactly if the rows of the tables hold what the code says, each of the nineteen conditions spelled out with its severity, identifier and detail |
| `RecoveryIssues.ChainIff` | services/paper_trading/recovery.py:153-179 | A fill justifies its order exactly if the first fill of the order is an entry, the first open position of its symbol was opened for the order's intent with its quantity and price, and there is a wallet |
| `RecoveryIssues.ChecksInOrder` | services/paper_trading/recovery.py:85-94 | The issues come in the order of the checks, whatever the tables |
| `RecoveryReady.ConsistentIff` | services/paper_trading/recovery.py:342-592 | The checks find nothing beyond what may be repaired exactly in tables in which every intent, position, fill and stop event is sound, no symbol has two open positions and no fill key repeats |
| `RecoveryReady.RepairDoes` | services/paper_trading/recovery.py:111-151 | A repair pass fails exactly the running jobs, fills exactly the open orders of intents that a chain justifies, completes exactly the unfinished intents of such orders, refreshes a stale heartbeat and leaves the rest |
| `RecoveryReady.ReadyIffConsistent` | services/paper_trading/recovery.py:181-277 | Startup ends READY exactly if the schema is current or the runtime was ready, the market data is ready, the tables are consistent in that sense, and the repaired ones account for the wallet |
| `RecoveryReady.FailedIff` | services/paper_trading/recovery.py:181-277 | It ends FAILED exactly if the schema is not current and the runtime was not ready, or a fatal condition holds of the tables; otherwise READY or DEGRADED |
| `RecoveryReady.ErrorIs` | services/paper_trading/recovery.py:205-277 | The recorded error is the first fatal issue; without one, a runtime that was ready records the first manual issue before missing market data, any other one after it |
| `RecoveryEngine.RepairableLeftIff` | services/paper_trading/recovery.py:354-367 | A repairable issue is left exactly if the heartbeat, the refreshed one or a fresh old one, is stale by the second check |
| `RecoveryEngine.HeartbeatGoesStale` | services/paper_trading/recovery.py:354-367 | A clock that advances by less than the threshold does not suffice: one instance |
| `RecoveryEngine.CanStartIff` | services/paper_trading/transitions.py:86-123 | Recovery starts from exactly the statuses that are ready or from which recovering can be reached |
| `RecoveryEngine.ReadyIff` | services/paper_trading/recovery.py:181-277 | Recovery ends READY exactly if schema and market data are ready, the checks found nothing beyond repair, and the repaired tables account for the wallet |
| `RecoveryEngine.ReadyIsCleanIff` | services/paper_trading/recovery.py:205-277 | A READY recovery has an empty issue list exactly if the heartbeat is fresh at the second check |
| `RecoveryEngine.ReadyIsClean` | services/paper_trading/recovery.py:228-277 | From any status but READY, a recovery within the threshold that ends READY has an empty issue list |
| `RecoveryEngine.EntryReadyIff` | services/paper_trading/recovery.py:279-297 | Entries are allowed after exactly those startups that end READY with the runtime, as it was found, neither paused nor stopped by the kill switch |
| `RecoveryEngine.RecoveryService.RunConsistencyChecks` | services/paper_trading/recovery.py:85-94 | The check loops, appending to one list, compute the issues whose conditions `RecoveryIssues.ReportedIff` gives |
| `RecoveryEngine.RecoveryService.ApplyAutoRepairs` | services/paper_trading/recovery.py:111-151 | The repair loop has the specified effect on the tables and returns the repairs it made |
| `RecoveryEngine.RecoveryService.RecoverOnStartup` | services/paper_trading/recovery.py:181-297 | Startup ends in the specified status, error, tables and heartbeat, with the specified issues, repairs and entry readiness, and is refused without change when the lock is not free or the status does not allow it |

## Left out

- Fairness.EveryGroupIsAttempted: is stated for an unchanged list of eligible groups, because a deferred group leaves that list until its retry time, which `Fairness.DeferredComesBack` bounds.
- BridgeRuns.AcknowledgedOpensAreComplete: speaks of the three jobs of the open's time, not of the symbol, because their keys name no symbol.
- BacktestEngine.Engine.Run: does not repeat the configuration and the assumption texts, which are constant, in the result.
- Metrics.ComputeMetrics: takes the root and the power function as parameters and reals for floats, so an overflow, on which the source reports no growth rate, is not modelled.
- BacktestResults.ReportedDrawdown: is stated for positive equities, because relative losses from an equity of zero or below have no meaning.
- Gaps.GapsExact: states which opens are missing for candles that open their periods, because the missing opens of a misaligned series are not defined.
- Stops.WatchBar: is an ideal watcher, the standard for the two stop formulas; the source has no loop over previews, and its one live caller is in `BridgeSharing.LiveWatchMissesExit`.
- BridgeEngine.PollLoop.ProcessCommittedPoll: does not keep the error text shown to operators; a store error is modelled as a commit that fails; a poll rolled back half way leaves the same store, and any memory covered by `BridgeRuns.AbortedMemory`.
- Decimal arithmetic is exact real arithmetic: context rounding, NaN and infinities are not modelled, nor the structure codes for non-finite prices.
- Times are seconds since the first day of year one in UTC; time zones, sub-second parts and the end of the datetime range are not modelled.
- The strategy, the risk engine and the market-data context are parameters, as are the low-level handlers of scheduler jobs, of which only success or failure is seen.
- Missing symbol constraints, for which the backtester raises, and configuration parsing.
- Hashes, UUIDs and job-name strings are injective keys; a live update's key holds the low itself rather than a digest.
- The attempt resumed after a restart is the one with the highest number; the source takes the latest start time, which differs only if the clock repeats or runs backwards.
- Lookups that the database makes unique (one order per intent, one open position per symbol, primary keys) take the first match; the exceptions on several matches are not modelled.
- The caller of an operator's recovery commits it before the next poll; were that poll rolled back instead, the remembered attempt would have no row, which no move of the histories leaves.
- Sessions, locks, connections, heartbeats, logging, audit events, and the HTTP and browser parts: external systems.
- Portfolio snapshots, the wallet and the independent accounting check: recovery takes the verdict of the latter as an input.
- The full list of conflicts between two given series, the published manifest and the quality reports of the dataset catalog.
