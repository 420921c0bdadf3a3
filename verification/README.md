# A verified model of the trading backend's stateful cores

This project models three parts of the trading backend and proves what holds of them for every input and, where state
is shared between asynchronous callers, for every interleaving.

1. **Admission to data providers** (`src/infrastructure/data/price-data-fetcher.js`): sliding-window rate limiter,
   backoff clock, a circuit breaker stored in two places, the availability report, the series cache with its in-flight
   de-duplication, and the pipeline that sanitises price bars.
2. **The auto-trading state machine** (`src/core/engine/trade-manager.js`): execution gate, debounced best-signal queue,
   greedy capped executors, scheduled scanner, cooldowns, intervals and smart-exit tracking.
3. **Backtest and indicator numerics** (`src/core/backtesting/*`, `src/core/analyzers/*`): entry search, first-touch
   exits, the decimal grid, drawdown, the Lehmer generator, least squares, swing detection and clustering.

## How it is built

Objects that change in place are classes (`Admission.ProviderGate`, `SeriesCache.Tables`, `TradeManager.Manager`,
`TradeTimers.Supervisor`, `MonteCarlo.Random`), loops are loops. Every method is tied to a specification function of the
old state, and the interleaving models (`AdmissionRuns`, `SeriesCache`, `TradeRuns`, `TradeTimers`) are built from the
same functions: each piece of code between two `await`s is one step, and a run is any sequence of steps. An event that
cannot happen leaves the world unchanged, so a statement about all event sequences is a statement about all runs.
A debounce timer fires once it is due, at that moment or later. Some code that runs without interruption is several steps
in the model: a refusal before registration is a step after the send, and going on to the next candidate a step after the
answer. The model therefore has every run of the code and more; what is proved of all runs holds for the code, and the
runs exhibited in `TradeMishaps.dfy` put nothing between such steps.
Calls into code outside the model (network, broker bridge, broker orders) are steps with arbitrary outcomes. Of the trading
engine the model keeps what the manager relies on: `executeTrade` either refuses at once or registers one open trade for
the signal's pair before its first `await`, and then reports it opened, withdraws it because the broker refused, or fails
with the trade left registered (`src/core/engine/modules/execution-engine.js:115-191`).

| file | subject |
|---|---|
| `Prelude.dfy`, `Sorting.dfy` | optional values, minimum and maximum, stable sorting |
| `Rounding.dfy`, `Statistics.dfy`, `Drawdown.dfy`, `MonteCarlo.dfy`, `Backtest.dfy` | backtesting |
| `Regression.dfy`, `Swings.dfy`, `Clusters.dfy` | indicators |
| `BarPipeline.dfy`, `SeriesCache.dfy` | price series |
| `Admission.dfy` | one provider: operations and their in-place class |
| `AdmissionRuns.dfy`, `AdmissionSafety.dfy`, `AdmissionCounters.dfy`, `AdmissionFetch.dfy`, `AdmissionReport.dfy` | quota, quiet periods, counters and breaker trips, order of providers, report and waiting times |
| `TradeGate.dfy`, `TradeManager.dfy` | gate, ranking, queue and executors |
| `TradeRuns.dfy`, `TradeQueueSafety.dfy`, `TradePairSafety.dfy`, `TradeCycles.dfy`, `TradeCooldown.dfy` | the interleavings and what they keep |
| `TradeTickets.dfy` | ids of registered trades, and the cooldown tested before the call |
| `TradeMishaps.dfy` | two runs that break what is kept only under conditions |
| `TradeTimers.dfy` | start, stop, intervals, smart exits |

## What the proofs show about the code

- The request quota is not a hard limit: the check and the record are separated by a network call, so with k requests
  in flight up to `maxRequests + k - 1` fall into one window. That bound is proved and proved to be attained; only k = 1
  respects the configured limit.
- The report and the admission check use different credential tests. With the default option they differ exactly for an
  enabled provider whose key is a placeholder such as `demo`.
- The announced wait for a full window is one millisecond too short, because the window is closed on the left, and can
  be too short by more when the window is overfull. Breaker and backoff waits are exact.
- A refusal for a full window is counted twice in the health entry, once by the check and once when the provider is
  skipped; the metrics count it once.
- One open trade per symbol is never broken by flushes, however they overlap, because a flush checks the pair in the step
  in which its trade is registered. A cycle checks when it collects and executes later without looking again: over all
  runs, the promise holds exactly when each trade a cycle registers finds its pair free. A run in which a flush opens a
  symbol between a cycle's collecting and executing it shows that it can fail.
- The realtime cooldown is checked when a signal is queued, not when it is sent. Over all runs, opens of one pair are
  spaced exactly when each of them finds its pair not cooling down at the moment it opens; atomic flushes guarantee that,
  and so would a test before the call, as long as no trade is closed while its own execution is awaited. In the run that
  breaks the promise a signal is queued again while its broker's flush awaits another symbol, which the broker then
  refuses; the symbol is opened twice in one millisecond.
- A trade withdrawn because the broker refused it is the one registered for the signal, whatever flushes and cycles
  register or close in between.
- Transaction costs divide by the price, the lot size and the position. At a zero price or lot size they silently vanish
  from the net pips; the return is lost exactly at a zero price or position.
- Stopping the last broker while trades are open leaves the monitor interval on; later stops cannot clear it, since they
  return early. The model states exactly when it is on.
- A generator seed whose remainder modulo 2147483647 is -2147483646 freezes the generator at state 0, every draw then
  indexes outside the returns and all figures become `null`; all other seeds, negative ones included, work.
- A trade that times out is priced at the *open* of the last bar, as `resolvePrice` prefers it, and `exitIndex` is the
  end of the holding window even when an earlier bar touched a level.
- `maxDrawdown` ignores stretches whose peak is not positive; on positive curves it is the textbook value.
- A missing decision score counts as 0 in the gate and as -1 in the ranking.
- `slice(-bars || length)` keeps nothing for a bar count of 0.

## Model

| member | source | states |
|---|---|---|
| Rounding.FixedPointsAreGrid | src/core/backtesting/utils.js:1-7 | `toFixedNumber(x, d)` returns x itself exactly for the multiples of 10^-d |
| Rounding.GridClosedUnderSum | src/core/backtesting/utils.js:1-7 | sums of grid values stay on the grid |
| Rounding.ToFixedMonotone | src/core/backtesting/utils.js:1-7 | rounding keeps order |
| Rounding.ToFixedIsNearest | src/core/backtesting/utils.js:1-7 | no grid value is closer to x than the one returned |
| Rounding.ToFixedWithin | src/core/backtesting/utils.js:1-7 | the result is at most half a unit of the last digit away, and an exact half goes up |
| Statistics.MeanWithinExtremes | src/core/backtesting/math-helpers.js:1-7 | the mean lies between least and greatest value and times the count gives the total |
| Statistics.ExtremesAreMembers | src/core/backtesting/monte-carlo-simulator.js:46-54 | least and greatest value are values of the list |
| Statistics.PercentileIsMember | src/core/backtesting/math-helpers.js:85-95 | a percentile of a non-empty list is one of its values |
| Statistics.PercentileIsRanked | src/core/backtesting/math-helpers.js:85-95 | the sorted copy is a permutation, not above the percentile before its rank and not below it after; the rank is the proportion of the values, rounded down, with the extremes outside [0, 1) |
| Statistics.PercentileMonotone | src/core/backtesting/math-helpers.js:85-95 | a higher rank never gives a smaller percentile |
| Statistics.PercentileWithinExtremes | src/core/backtesting/math-helpers.js:85-95 | percentiles lie between least and greatest value, for ranks outside [0, 1] too |
| Statistics.SortAscSorts | src/core/backtesting/math-helpers.js:89-89 | the sort orders and permutes |
| Drawdown.CumulativeSum | src/core/backtesting/math-helpers.js:25-33 | entry k is the total of the first k + 1 values |
| Drawdown.MaxDrawdown | src/core/backtesting/math-helpers.js:35-63 | one pass computes the minimum of 0 and of all falls below a positive running peak: no value lies further below such a peak than the drawdown times the peak, and a drawdown below 0 is reached; the trough is the lowest value since the final peak was first reached |
| Drawdown.WorstFallIsMinimum | src/core/backtesting/math-helpers.js:40-56 | that value is a lower bound of every fall and is attained or 0 |
| Drawdown.NoDrawdownIff | src/core/backtesting/math-helpers.js:40-56 | no drawdown exactly when the curve never lies below a positive peak |
| Drawdown.PositiveCurveDrawdown | src/core/backtesting/math-helpers.js:35-63 | on a positive curve the value is the least relative fall over all pairs i <= j and lies in (-1, 0] |
| Drawdown.DrawdownInPrices | src/core/backtesting/math-helpers.js:35-63 | in plain arithmetic: v - peak >= drawdown * peak at every positive running peak, with equality somewhere unless the drawdown is 0 |
| Drawdown.PositiveDrawdownInPrices | src/core/backtesting/math-helpers.js:35-63 | on a positive curve v[j] - v[i] >= drawdown * v[i] for all i <= j, with equality for some pair |
| MonteCarlo.StepStaysLive | src/core/backtesting/monte-carlo-simulator.js:9-12 | a step maps 1..2147483646 into itself and its product stays below 2^53 |
| MonteCarlo.StepIsBijection | src/core/backtesting/monte-carlo-simulator.js:9-12 | the step is one-to-one and onto on that range |
| MonteCarlo.StartIsLiveIff | src/core/backtesting/monte-carlo-simulator.js:4-8 | the first state is usable exactly for seeds that are not dead; every non-negative seed is usable; a seed in range is its own state, and multiples of the modulus do not matter |
| MonteCarlo.AllDrawsInBoundsIff | src/core/backtesting/monte-carlo-simulator.js:4-45 | every draw indexes inside the returns, for ever, exactly when the seed is not dead |
| MonteCarlo.PickIsProportional | src/core/backtesting/monte-carlo-simulator.js:9-40 | state s picks index k exactly when (s - 1) * n lies in the k-th of n equal parts of 2147483646 |
| MonteCarlo.Random.constructor | src/core/backtesting/monte-carlo-simulator.js:4-8 | the first state as JavaScript's remainder gives it |
| MonteCarlo.Random.Next | src/core/backtesting/monte-carlo-simulator.js:9-12 | one step of the state and the draw belonging to the new state |
| MonteCarlo.RunsShareOneStream | src/core/backtesting/monte-carlo-simulator.js:33-44 | run k starts where draw sampleSize * k of one single stream left off |
| MonteCarlo.DrawAndAdd | src/core/backtesting/monte-carlo-simulator.js:37-43 | the inner loop adds exactly sampleSize draws, or yields NaN from the frozen state |
| MonteCarlo.RunMonteCarlo | src/core/backtesting/monte-carlo-simulator.js:15-55 | the report: zeros without trades, nulls for a dead seed, else mean, percentiles and extremes of the resampled sums, rounded |
| MonteCarlo.EveryRunIsBounded | src/core/backtesting/monte-carlo-simulator.js:37-44 | each run lies between sampleSize times the worst and the best return |
| MonteCarlo.ReportIsOrdered | src/core/backtesting/monte-carlo-simulator.js:46-54 | worst <= p5 <= p95 <= best and worst <= mean <= best after rounding |
| MonteCarlo.ReportReadsRanks | src/core/backtesting/monte-carlo-simulator.js:46-54 | p5 and p95 are the sums at rank floor(n / 20) and floor(19 n / 20) of the sorted list; all figures are percentages rounded to three digits |
| Backtest.FindEntryIndex | src/core/backtesting/vectorized-backtester.js:5-28 | on ordered times the binary search finds the first bar not before the target, shifted by the offset, or -1 |
| Backtest.EntryIsAfterSignal | src/core/backtesting/vectorized-backtester.js:5-28 | with offset 1 the entry bar is strictly after the signal and skips at most one bar |
| Backtest.EvaluateTrade | src/core/backtesting/vectorized-backtester.js:84-154 | a trade exists exactly when its entry bar has a price; it exits at the first bar that reaches a level or the end of the window, for the reason and at the price the raw prices of that bar give, and its figures are those of that exit, null where they are not finite |
| Backtest.DetermineExitIsExact | src/core/backtesting/vectorized-backtester.js:46-82 | within one bar the profit is taken exactly when its price is reached, the stop exactly when its price is reached and the profit is not; else the trade leaves at open, close, price or entry, in this order |
| Backtest.EndsInRawPrices | src/core/backtesting/vectorized-backtester.js:84-122 | the same of the whole trade, in highs, lows and entry plus or minus pips: no earlier bar of the window reaches a level |
| Backtest.NetIsGrossLessCosts | src/core/backtesting/vectorized-backtester.js:124-138 | gross pips are the signed move; gross less net pips, in currency, are the rounded costs; the return is the net move over the entry price |
| Backtest.CostsAddUp | src/core/backtesting/transaction-cost-model.js:33-57 | costs are spread and slippage in pips and commission per lot |
| Backtest.PublishedFigures | src/core/backtesting/vectorized-backtester.js:138-154 | published prices and returns have six digits, pips three, each within half a unit of the exact figure |
| Backtest.WhenFiguresAreLost | src/core/backtesting/transaction-cost-model.js:33-57 | net pips are null exactly without a position, the return exactly without a position or price; at a zero price or lot size the costs vanish |
| Backtest.ExitIsUnique | src/core/backtesting/vectorized-backtester.js:106-122 | the window determines the exit |
| Backtest.GrossPipsWithinLevels | src/core/backtesting/vectorized-backtester.js:46-82 | on well-formed bars gross pips lie in [-stop, take] and equal the level that closed the trade |
| Backtest.MirrorKeepsExit | src/core/backtesting/vectorized-backtester.js:46-122 | reflecting prices about the entry and swapping direction reflects the exit |
| Backtest.MirrorTradeEarnsTheSame | src/core/backtesting/vectorized-backtester.js:124-138 | the reflected trade has the same gross pips, costs, net pips and return |
| Backtest.MirrorEarns | src/core/backtesting/transaction-cost-model.js:33-57 | costs do not depend on direction or exit price |
| Backtest.Execute | src/core/backtesting/vectorized-backtester.js:194-231 | one signal yields no trade or the one its first-touch exit prescribes, with a return on the 10^-6 grid |
| Backtest.SignalGoesFirst | src/core/backtesting/vectorized-backtester.js:206-231 | levels, units and holding time of the signal go before the settings; its own holding time is at least one bar |
| Backtest.KeptInOrder | src/core/backtesting/vectorized-backtester.js:194-238 | the trade of a signal stands behind exactly the trades of the signals before it |
| Backtest.Run | src/core/backtesting/vectorized-backtester.js:168-258 | trades in signal order; the published curve, kept as a separately rounded sum, is the exact cumulative sum the summary measures its drawdown on |
| Backtest.TotalOnGrid | src/core/backtesting/performance-metrics.js:28-29 | totals of grid values are grid values, so the summary's curve and the published one coincide |
| Regression.LinearRegression | src/core/analyzers/technical-analyzer.js:1871-1909 | zeros for unusable input, else slope, intercept and R squared of the two-pass formulas, and R squared measures the fit of that line |
| Regression.FitIsLeastSquares | src/core/analyzers/technical-analyzer.js:1881-1895 | no line has a smaller squared error than the fitted one |
| Regression.FitError | src/core/analyzers/technical-analyzer.js:1897-1904 | the residual is Syy - Sxy^2 / Sxx |
| Regression.RSquaredInUnit | src/core/analyzers/technical-analyzer.js:1906-1906 | the R squared of `RSquaredMeasuresFit` lies in [0, 1] unclamped |
| Regression.RSquaredMeasuresFit | src/core/analyzers/technical-analyzer.js:1906-1906 | R squared times the squared error of the constant line at the mean is that error less the error of the fit, and Sxy^2 / Sxx; it is 1 exactly when every point lies on the line and 0 exactly when x and y do not vary together |
| Regression.NoSpreadNoCovariance | src/core/analyzers/technical-analyzer.js:1894-1894 | a zero denominator leaves a zero numerator, so slope 0 through the mean is the right answer |
| Regression.Deviations | src/core/analyzers/technical-analyzer.js:1897-1904 | the residual loop computes total and residual squares |
| Regression.DenominatorIsPositive | src/core/analyzers/candle-analysis-lite.js:113-116 | the raw-moment denominator is positive for two or more points and zero below |
| Regression.SlopeFromMoments | src/core/analyzers/candle-analysis-lite.js:113-118 | the raw-moment slope is the centred one |
| Regression.ComputeRegression | src/core/analyzers/candle-analysis-lite.js:92-133 | refuses exactly short inputs and windows below two points; otherwise slope and R squared of the first implementation for the last closes on 0..m-1, measuring that fit, so the clamp never acts |
| Swings.Scan | src/core/analyzers/technical-analyzer.js:1846-1857 | the inner loop with its early exit decides peak and trough exactly |
| Swings.IdentifySwings | src/core/analyzers/technical-analyzer.js:1835-1869 | highs and lows list exactly the peaks, in order, with their time and price |
| Swings.PeaksAreExact | src/core/analyzers/technical-analyzer.js:1843-1865 | the list holds an index exactly when it is strictly above its left and not below its right neighbours |
| Swings.PeaksInPrices | src/core/analyzers/technical-analyzer.js:1846-1857 | in prices: a swing high is above the highs of the window before it and no lower than those after, a swing low the reverse |
| Swings.PeaksAreApart | src/core/analyzers/technical-analyzer.js:1846-1857 | two peaks are more than the window apart |
| Swings.PeakCount | src/core/analyzers/technical-analyzer.js:1843-1865 | at most ceil((n - 2w) / (w + 1)) peaks |
| Clusters.VolatilityClusters | src/core/analyzers/technical-analyzer.js:1501-1530 | expanding the clusters gives back the tag of every move, neighbours differ, times and mean magnitude are those of the moves covered, the last cluster carries the latest tag |
| Clusters.TagsAreExact | src/core/analyzers/technical-analyzer.js:1501-1516 | a move is volatile exactly when its relative size exceeds 1.8 times the mean size, calm exactly when it is below 0.7 times it; a zero price counts as 1 |
| Clusters.ClusteringIsUnique | src/core/analyzers/technical-analyzer.js:1501-1530 | no other clustering with differing neighbours has the same expansion |
| BarPipeline.ValidatePriceBars | src/infrastructure/data/price-data-fetcher.js:1093-1159 | survivors in order, each counter, and kept + duplicates + future + invalid = total |
| BarPipeline.SurvivorsAreGood | src/infrastructure/data/price-data-fetcher.js:1112-1156 | survivors have low <= open, close <= high, distinct times and are not in the future |
| BarPipeline.SurvivorsAreFirsts | src/infrastructure/data/price-data-fetcher.js:1112-1156 | validation keeps exactly the cleaned first entry of every time that is not too far in the future |
| BarPipeline.RescaleIsMilliseconds | src/infrastructure/data/price-data-fetcher.js:1127-1129 | times below 10^10 are seconds, turned into whole milliseconds by truncation; others stay |
| BarPipeline.CleanEncloses | src/infrastructure/data/price-data-fetcher.js:1117-1154 | open and close are kept, high and low become the extremes of the four prices, a missing volume reads 0; an entry counts as adjusted exactly when a price lay outside |
| BarPipeline.SortOrders | src/infrastructure/data/price-data-fetcher.js:1053-1053 | sorting survivors gives strictly increasing times |
| BarPipeline.SortKeepsAll | src/infrastructure/data/price-data-fetcher.js:1053-1053 | sorting neither loses nor invents bars |
| BarPipeline.AssessSeriesQuality | src/infrastructure/data/price-data-fetcher.js:1161-1210 | gaps, widest gap, disorder, last time and staleness of the series |
| BarPipeline.QualityIsRecorded | src/infrastructure/data/price-data-fetcher.js:1161-1210 | gaps and disorder count the steps that exceed timeframe times gap multiplier or go back; the widest gap is the widest of them; stale means older than timeframe times age multiplier; the ratio is the share of the steps |
| BarPipeline.PostProcessSeries | src/infrastructure/data/price-data-fetcher.js:1045-1091 | null exactly when nothing survives or enforced quality fails, else the requested tail of the sorted survivors |
| BarPipeline.ReturnedUnlessPoor | src/infrastructure/data/price-data-fetcher.js:1045-1091 | null exactly when nothing survives or enforced quality is stale or has too many gaps; a count of 0 returns nothing, a negative one drops from the front |
| BarPipeline.OutputIsOrdered | src/infrastructure/data/price-data-fetcher.js:1045-1091 | the output is sound, strictly ordered and the last min(bars, kept) survivors; recorded disorder is 0, the gap ratio in [0, 1] |
| BarPipeline.GapRatioInUnit | src/infrastructure/data/price-data-fetcher.js:1194-1194 | the gap ratio is in [0, 1] for any series |
| BarPipeline.ValidationIsIdempotentIff | src/infrastructure/data/price-data-fetcher.js:1093-1159 | validating the result again changes nothing exactly when every kept time is 0 or at least 10^10 |
| Admission.ProviderGate.constructor | src/infrastructure/data/price-data-fetcher.js:291-372 | a new gate has an empty window and agreeing breaker copies |
| Admission.ProviderGate.TrimUsage | src/infrastructure/data/price-data-fetcher.js:656-672 | keeps exactly the entries of the window and the counters derived from them |
| Admission.ProviderGate.CanMakeRequest | src/infrastructure/data/price-data-fetcher.js:557-607 | the answer and the state it leaves: expired breaker cleared, window trimmed, refusals counted |
| Admission.ProviderGate.GetRequestAllowance | src/infrastructure/data/price-data-fetcher.js:609-654 | reason and waiting time for a refusal, with the same state change |
| Admission.ProviderGate.HandleRateLimitSkip | src/infrastructure/data/price-data-fetcher.js:684-695 | both rate-limit counters move, nothing else |
| Admission.ProviderGate.RegisterRateLimitHit | src/infrastructure/data/price-data-fetcher.js:697-726 | the backoff is set anew, never below 2 s, in all three places |
| Admission.ProviderGate.RecordRequest | src/infrastructure/data/price-data-fetcher.js:1349-1420 | usage sample, counters, 20-entry latency window, quality and the breaker conditions |
| Admission.ProviderGate.EvaluateProviderHealth | src/infrastructure/data/price-data-fetcher.js:1422-1483 | expired breaker cleared, every applicable cause trips, status published; `AdmissionCounters.TripsExactlyByLog` says when that is |
| Admission.ProviderGate.ActivateCircuitBreaker | src/infrastructure/data/price-data-fetcher.js:1485-1503 | both copies set to the same breaker of at least 30 s |
| Admission.ProviderGate.ClearCircuitBreaker | src/infrastructure/data/price-data-fetcher.js:1505-1518 | both copies cleared, failure streak forgotten |
| Admission.OperationsKeepConsistent | src/infrastructure/data/price-data-fetcher.js:557-726 | every operation keeps the breaker copies equal and `blocked` shown exactly while they are set |
| AdmissionCounters.CountersMeanHistory | src/infrastructure/data/price-data-fetcher.js:1349-1483 | in every run, breakers lapsing in between: each recorded outcome is counted once, the streak is the failures since the last success or clearing, the average that of the last 20 latencies, the quality that of the last outcome |
| AdmissionCounters.TripsExactlyByLog | src/infrastructure/data/price-data-fetcher.js:1422-1503 | in every run a record trips the breaker exactly when the outcome failed and the failures since the last success or clearing reach the threshold, or five outcomes are recorded and the mean of the last 20 latencies exceeds target times multiplier, or its quality is below the threshold; the last cause that applies stays, for at least 30 s; the status follows from breaker, success share and quality |
| AdmissionCounters.ReadsPayload | src/infrastructure/data/price-data-fetcher.js:1349-1400 | only an explicit false is a failure; a negative latency is none; a missing quality is 1 or 0 |
| Admission.SinceTwice | src/infrastructure/data/price-data-fetcher.js:663-665 | trimming twice is trimming once at the later cutoff |
| AdmissionRuns.StepsAreMoves | src/infrastructure/data/price-data-fetcher.js:794-840 | every step of any interleaving is, for one provider, one of five moves |
| AdmissionRuns.QuotaThroughout | src/infrastructure/data/price-data-fetcher.js:794-840 | the invariant: usage is the recorded history cut off before the window, and window count + in-flight <= maxRequests - 1 + k |
| AdmissionRuns.QuotaTheorem | src/infrastructure/data/price-data-fetcher.js:557-607 | with at most k requests between grant and record, every closed interval of window length holds at most maxRequests + k - 1 recorded requests, for all runs and stale readings |
| AdmissionSafety.QuotaBoundIsAttained | src/infrastructure/data/price-data-fetcher.js:797-837 | for every limit and k some run with at most k requests in flight puts that many requests into one window |
| AdmissionSafety.QuietPeriodTheorem | src/infrastructure/data/price-data-fetcher.js:697-726 | in every run no grant falls within 30 s of a breaker activation or 2 s of a rate-limit hit, and the breaker copies and status agree |
| AdmissionSafety.RecordEffect | src/infrastructure/data/price-data-fetcher.js:1422-1503 | a record leaves the backoff alone and either trips the breaker for 30 s or keeps it unless expired |
| AdmissionFetch.SuccessEndsFetch | src/infrastructure/data/price-data-fetcher.js:794-840 | after its first success a fetch asks and records nothing any more, whatever others do |
| AdmissionFetch.FailureGoesOn | src/infrastructure/data/price-data-fetcher.js:794-840 | after a refusal or a failure it goes on with the next provider of its order, after a grant it waits for that provider |
| AdmissionFetch.RateLimitsAreCounted | src/infrastructure/data/price-data-fetcher.js:592-726 | in every run the metrics count refused turns and rate-limit hits once, the health entry counts refusals for a full window twice |
| AdmissionReport.GetProviderAvailability | src/infrastructure/data/price-data-fetcher.js:466-538 | the report and its reasons; it trims and never clears a breaker |
| AdmissionReport.ReasonsExplain | src/infrastructure/data/price-data-fetcher.js:485-526 | no reasons exactly when available, each obstacle under its own name and cause |
| AdmissionReport.ReportAgreesIff | src/infrastructure/data/price-data-fetcher.js:466-607 | report and admission check agree exactly when their credential tests do or something else blocks both |
| AdmissionReport.DefaultReportAgreesIff | src/infrastructure/data/price-data-fetcher.js:415-464 | with the default option they differ exactly for an otherwise open provider with a placeholder key |
| AdmissionReport.AskingIsHarmless | src/infrastructure/data/price-data-fetcher.js:557-672 | asking or reporting changes no later answer |
| AdmissionReport.PollingIsHarmless | src/infrastructure/data/price-data-fetcher.js:557-672 | neither does any number of polls |
| AdmissionReport.AllowanceSaysWhy | src/infrastructure/data/price-data-fetcher.js:609-654 | the reported reason is the first obstacle in the order of the check |
| AdmissionReport.BreakerWaitIsExact | src/infrastructure/data/price-data-fetcher.js:630-638 | a breaker refuses exactly until now + waitMs |
| AdmissionReport.BackoffWaitIsExact | src/infrastructure/data/price-data-fetcher.js:639-641 | so does a backoff |
| AdmissionReport.HitRefusesFor | src/infrastructure/data/price-data-fetcher.js:697-726 | a hit refuses exactly for the time the provider asked for, else the cooldown, else ten seconds, never less than two |
| AdmissionReport.RemainingIsRoom | src/infrastructure/data/price-data-fetcher.js:656-672 | the remaining count is the room left in the window, 0 exactly when it is full |
| AdmissionReport.ResetIsWhenOldestLeaves | src/infrastructure/data/price-data-fetcher.js:656-672 | the window keeps all its entries until the reset time and loses one just after |
| AdmissionReport.WindowWaitTheorem | src/infrastructure/data/price-data-fetcher.js:642-647 | a full window refuses throughout the wait and lifts one millisecond after the maxRequests-th newest entry has aged windowMs |
| AdmissionReport.WindowWaitExactIff | src/infrastructure/data/price-data-fetcher.js:642-647 | it lifts at now + waitMs + 1 exactly when that entry is as old as the oldest, in particular with maxRequests entries |
| AdmissionReport.UsageIsSortedThroughout | src/infrastructure/data/price-data-fetcher.js:674-682 | in every run the usage list is sorted, so the waiting-time results apply |
| SeriesCache.Tables.constructor | src/infrastructure/data/price-data-fetcher.js:247-249 | empty tables |
| SeriesCache.Tables.GetCachedSeries | src/infrastructure/data/price-data-fetcher.js:1662-1672 | returns an unexpired entry, drops a stale or invalidated one |
| SeriesCache.Tables.CacheSeries | src/infrastructure/data/price-data-fetcher.js:1653-1660 | stores with expiry now + ttl |
| SeriesCache.Tables.FetchWithDedup | src/infrastructure/data/price-data-fetcher.js:857-870 | joins the execution in flight for the key or registers its own |
| SeriesCache.Tables.Release | src/infrastructure/data/price-data-fetcher.js:861-866 | the key is free again however the execution ended |
| SeriesCache.Tables.ClearCache | src/infrastructure/data/price-data-fetcher.js:1674-1677 | the cache is empty |
| SeriesCache.SettleKeepsDedup | src/infrastructure/data/price-data-fetcher.js:861-866 | success and failure both free the key and keep the invariant |
| SeriesCache.DedupTheorem | src/infrastructure/data/price-data-fetcher.js:738-775 | in every run executions of one key never overlap, a key is registered exactly while one runs, and every caller awaits one of its key that had not ended when it arrived and gets its result |
| SeriesCache.CacheHitTheorem | src/infrastructure/data/price-data-fetcher.js:749-775 | a hit at t returns a series stored under its key at some s with s <= t < s + ttl |
| SeriesCache.FetchedSeriesIsServed | src/infrastructure/data/price-data-fetcher.js:749-775 | a fetched series that is not empty and wanted cached is served for its key until its time to live is over, unless cleared, invalidated or replaced |
| SeriesCache.OnlyResultsAreStored | src/infrastructure/data/price-data-fetcher.js:758-769 | in every run only a series that a caller fetched and wanted cached is stored, under its key and time to live |
| SeriesCache.InvalidatingCallMisses | src/infrastructure/data/price-data-fetcher.js:1662-1672 | a caller that invalidates or bypasses the cache gets nothing from it; invalidating drops the entry |
| TradeGate.HasOpenTradeForPair | src/core/engine/trade-manager.js:405-425 | found exactly when an open trade has the same trimmed, upper-cased, non-blank pair |
| TradeGate.TrimStrips | src/core/engine/trade-manager.js:405-425 | trimming takes blanks off both ends and nothing else |
| TradeGate.UpperForgetsCase | src/core/engine/trade-manager.js:405-425 | upper-casing identifies exactly the two cases of a letter |
| TradeGate.GatePassesIff | src/core/engine/trade-manager.js:245-334 | the gate passes exactly the executable, strong enough, allowed signals without an open trade that the bridge does not veto |
| TradeGate.SortRankedSorts | src/core/engine/trade-manager.js:508-524 | ranking is a permutation in which the score, a missing one as -1, never rises, nor the confidence among equal scores, nor the strength among equals in both |
| TradeGate.RankingIsStable | src/core/engine/trade-manager.js:508-524 | signals with the same three numbers keep their order |
| TradeGate.SortRankedKeepsDistinct | src/core/engine/trade-manager.js:508-524 | ranking keeps distinct pairs distinct |
| TradeGate.GetPairsToScan | src/core/engine/trade-manager.js:670-688 | the loop keeps the first of each case-insensitive kind |
| TradeGate.ScanListIsDistinct | src/core/engine/trade-manager.js:670-688 | no two scanned pairs differ only in case or blanks |
| TradeGate.ScanListKeepsAll | src/core/engine/trade-manager.js:670-688 | no listed pair is lost |
| TradeManager.Manager.constructor | src/core/engine/trade-manager.js:99-105 | nothing enabled, queued or opened |
| TradeManager.Manager.EnqueueRealtimeSignal | src/core/engine/trade-manager.js:427-473 | an accepted signal replaces its pair's candidate unless that scores higher, and arms the timer |
| TradeManager.Manager.BeginFlush | src/core/engine/trade-manager.js:475-490 | the timer is gone; a disabled broker's candidates are dropped |
| TradeManager.Manager.FinishFlush | src/core/engine/trade-manager.js:491-624 | drops, or drains in rank order and executes up to the cap |
| TradeManager.Manager.RunCandidates | src/core/engine/trade-manager.js:526-624 | the executor loop against its specification |
| TradeManager.Manager.TryCandidate | src/core/engine/trade-manager.js:532-590 | one candidate: re-checks, execution, cooldown entry if it opened |
| TradeManager.Manager.ExecuteTrade | src/core/engine/modules/execution-engine.js:115-176 | the trade is registered at once and deleted again if the broker refuses |
| TradeManager.AttemptEffect | src/core/engine/modules/execution-engine.js:115-176 | a refused execution leaves the trades as they were, any other adds exactly one open trade of the pair under a fresh id |
| TradeManager.Manager.ScanBroker | src/core/engine/trade-manager.js:950-1056 | the scan loop: pairs due, answers recorded, passing signals collected and ranked by score, confidence and strength |
| TradeManager.Manager.ExecuteRanked | src/core/engine/trade-manager.js:1058-1117 | the cycle's executor loop with its cap and no re-check |
| TradeManager.UpsertAt | src/core/engine/trade-manager.js:454-461 | map insertion as a search in the list of candidates |
| TradeManager.CapStays | src/core/engine/trade-manager.js:526-530 | once the cap is reached the rest of a flush changes nothing |
| TradeManager.SendsIffFit | src/core/engine/trade-manager.js:532-560 | a flush hands over exactly the candidates with a pair that are fit |
| TradeManager.CollectsIffFit | src/core/engine/trade-manager.js:985-1039 | a cycle collects exactly the fit signals it gets without a veto |
| TradeRuns.FlushInPlaceIsRun | src/core/engine/trade-manager.js:526-624 | the loop performed in place is the interleaving model's flush with nothing in between |
| TradeRuns.ScanInPlaceIsRun | src/core/engine/trade-manager.js:950-1039 | the same for the scan loop |
| TradeRuns.CycleInPlaceIsRun | src/core/engine/trade-manager.js:1058-1117 | the same for the cycle's executor |
| TradeQueueSafety.NothingIsStranded | src/core/engine/trade-manager.js:427-506 | in every reachable state a broker with candidates has an armed timer or a flush at its connectivity check |
| TradeQueueSafety.TimersAreDueSoon | src/core/engine/trade-manager.js:463-472 | in every reachable state an armed timer is due within the debounce |
| TradeQueueSafety.FlushesWaitForTheDebounce | src/core/engine/trade-manager.js:463-490 | in every run a flush begins once the first signal queued since the last one has waited for the debounce, and not before |
| TradeQueueSafety.UpsertKeepsSlots | src/core/engine/trade-manager.js:454-461 | one arrival keeps every slot the latest of the best-scored signals |
| TradeQueueSafety.SlotsHoldLatestBest | src/core/engine/trade-manager.js:427-506 | in every reachable state the queue holds, per broker and pair, exactly that signal since the last drain or drop |
| TradeQueueSafety.ExecutorsThroughout | src/core/engine/trade-manager.js:475-624 | the invariant of all executors: rank order, positions opened below the current one, never above the cap; every candidate and every signal sent passed the gate |
| TradeQueueSafety.FlushIsGreedy | src/core/engine/trade-manager.js:498-624 | a flush opens at most max(1, maxNewTradesPerCycle) trades, and leaves a candidate untried only when that many are open and only one whose score, then confidence, then strength is no higher than that of every one opened |
| TradeQueueSafety.CycleIsCapped | src/core/engine/trade-manager.js:1041-1117 | a cycle opens at most as many per broker in rank order and stops early only then; what it leaves ranks no higher, score first, than what it tried |
| TradeQueueSafety.EverySentSignalPassed | src/core/engine/trade-manager.js:245-334 | every signal a flush hands over is fit at that moment; every candidate a cycle holds or hands over was fit when collected, and is still fit exactly when its pair has no open trade |
| TradePairSafety.OpeningKeepsIff | src/core/engine/trade-manager.js:405-425 | a new trade keeps one trade per pair exactly when its pair is blank or has none open |
| TradePairSafety.WithoutKeepsUnique | src/core/engine/modules/execution-engine.js:163-176 | withdrawing or closing a trade keeps one trade per pair |
| TradePairSafety.UniqueExactlyWhenGuarded | src/core/engine/trade-manager.js:1058-1079 | over every run, at most one trade is open per trimmed, upper-cased pair at every moment exactly when every trade a cycle registered found its pair free |
| TradePairSafety.FlushesNeverClash | src/core/engine/trade-manager.js:475-624 | without cycles no run, however flushes overlap, ever has two open trades of one pair |
| TradeCycles.StepKeepsSafe | src/core/engine/trade-manager.js:926-1118 | every step keeps the choices of cycles free and distinct when nobody registers a trade for another's choice and signals keep their pair |
| TradeCycles.OneTradePerPair | src/core/engine/trade-manager.js:926-1118 | every such run has at most one open trade per pair at every moment |
| TradeCycles.NoOverlapIsUndisturbed | src/core/engine/trade-manager.js:926-1118 | flushes and cycles that do not overlap never register a trade for another's choice |
| TradeCycles.OnePerPairWithoutOverlap | src/core/engine/trade-manager.js:926-1118 | every run in which flushes and cycles do not overlap and signals keep their pair has at most one open trade per pair at every moment |
| TradeCycles.RegisteredSignalsFit | src/core/engine/trade-manager.js:1058-1079 | in such runs every trade registered, by flush or cycle, is for a signal that passes the full gate at that moment |
| TradeCycles.AsksExactlyWhenDue | src/core/engine/trade-manager.js:952-978 | in every run a cycle asks for the signal of a pair exactly when the latest answer for it is the check interval or more ago |
| TradeCycles.SkipsDisabledBrokers | src/core/engine/trade-manager.js:940-943 | a cycle passes over exactly the brokers disabled when it comes to them |
| TradeCycles.PassesUnreachableBrokers | src/core/engine/trade-manager.js:945-951 | a broker without connectivity is passed over, one with it is scanned for its pairs |
| TradeMishaps.CycleOpensTwice | src/core/engine/trade-manager.js:926-1118 | for every tradable signal a run exists in which a cycle opens what a flush has opened since it collected it |
| TradeMishaps.GoldAndEuroArePlayable | src/core/engine/trade-manager.js:245-334 | such signals exist: one for XAUUSD, one for EURUSD |
| TradeCooldown.RememberedThroughout | src/core/engine/trade-manager.js:587-592 | in every run the cooldown table holds the latest open of each broker and pair |
| TradeCooldown.QueuedExactlyWhenFree | src/core/engine/trade-manager.js:427-461 | in every run a signal is queued exactly when it is valid, its broker enabled, its pair without open trade and not opened for that broker less than the cooldown ago |
| TradeCooldown.OpenKeepsSpacingIff | src/core/engine/trade-manager.js:449-455 | in every reachable state one more open keeps the spacing exactly when its pair is not cooling down |
| TradeCooldown.SpacedExactlyWhenRested | src/core/engine/trade-manager.js:449-590 | over every run, realtime opens of one broker and pair are at least the cooldown apart exactly when each found its pair not cooling down as it opened |
| TradeCooldown.OpensAreSpaced | src/core/engine/trade-manager.js:449-624 | so they are in every run in which, as a pair opens, its broker has no candidate of it queued or left in another flush |
| TradeCooldown.AtomicIsCalm | src/core/engine/trade-manager.js:475-624 | atomic flushes have that property |
| TradeCooldown.AtomicFlushesAreSpaced | src/core/engine/trade-manager.js:475-624 | in every run with atomic flushes opens of one broker and pair are at least the cooldown apart |
| TradeTickets.TestingBeforeSendingSpaces | src/core/engine/trade-manager.js:449-590 | so they are in every run in which each flush sends only what is not cooling down at that moment and no trade is closed while its own execution is awaited |
| TradeTickets.WithoutRemovesOne | src/core/engine/modules/execution-engine.js:163-176 | with distinct ids a deletion removes exactly the trade of that id and keeps the order of the others |
| TradeTickets.TicketedThroughout | src/core/engine/modules/execution-engine.js:115-176 | in every run ids of trades are distinct and below the next one, awaited executions have ids of their own, and a trade under such an id is of the signal's pair |
| TradeTickets.WithdrawalIsExact | src/core/engine/modules/execution-engine.js:163-176 | in every run a withdrawal deletes exactly the trade registered for its signal, and nothing if that is closed already |
| TradeMishaps.RequeuedSignalBreaksCooldown | src/core/engine/trade-manager.js:449-590 | for every two tradable signals and every cooldown a run exists in which the broker refuses the first and two flushes open the second in one millisecond |
| TradeTimers.Supervisor.constructor | src/core/engine/trade-manager.js:99-105 | no broker enabled, no interval, no evaluation |
| TradeTimers.Supervisor.EnsureIntervalsRunning | src/core/engine/trade-manager.js:775-787 | creates only the missing intervals |
| TradeTimers.Supervisor.MaybeStopIntervals | src/core/engine/trade-manager.js:789-812 | with no broker enabled the signal interval goes, and the monitor too when no trade is active |
| TradeTimers.Supervisor.ResumeStart | src/core/engine/trade-manager.js:834-873 | a start after its connectivity check |
| TradeTimers.Supervisor.StopAutoTrading | src/core/engine/trade-manager.js:878-921 | stopping one broker or all, with its answer |
| TradeTimers.Supervisor.VisitTrade | src/core/engine/trade-manager.js:1146-1184 | evaluates a due trade that nobody evaluates and marks it |
| TradeTimers.Supervisor.EndEvaluation | src/core/engine/trade-manager.js:1249-1251 | the mark is removed however the evaluation ended |
| TradeTimers.IntervalsFollowBrokers | src/core/engine/trade-manager.js:775-921 | in every reachable state the signal interval runs exactly while a broker is enabled, the monitor exactly while one is or the last stop left trades, and no other interval runs |
| TradeTimers.EnabledSinceStart | src/core/engine/trade-manager.js:817-921 | in every run exactly the brokers started, connected or without needing it, since they or all were stopped are enabled |
| TradeTimers.StartsWait | src/core/engine/trade-manager.js:817-834 | asking to start leads to a start exactly when the broker is not enabled already |
| TradeTimers.MonitorWorksWhileNeeded | src/core/engine/trade-manager.js:770-773 | the monitor works exactly while a broker is enabled or trades left by the last stop are open |
| TradeTimers.TimedThroughout | src/core/engine/trade-manager.js:775-921 | the invariant behind it: live intervals are exactly the two handles |
| TradeTimers.SmartExitsAreExclusive | src/core/engine/trade-manager.js:1146-1253 | in every run a trade is evaluated by at most one monitor run, the in-flight set is exact, and starts for one trade are at least the recheck time apart |
| TradeTimers.DueTradesAreEvaluated | src/core/engine/trade-manager.js:1146-1184 | in every run a visited trade is evaluated exactly when it is open and named, smart exits are on, nobody evaluates it and no evaluation of it started less than the recheck time ago |
| TradeTimers.LoopsOnlyForSmartExits | src/core/engine/trade-manager.js:1146-1150 | without smart exits no trade is ever visited |

## Left out

- AdmissionRuns.QuotaTheorem: requires a limit of at least 1, since 0 means no limit in the code.
- MonteCarlo.RunMonteCarlo: takes the effective seed as an argument; a seed of 0 or none selects the clock, and iteration counts are integers.
- Numbers are exact: inputs are finite and there is no IEEE rounding; infinities and NaN appear only where dead seeds and zero divisors of the cost model make them.
- Strings: trimming knows the ASCII blanks and upper-casing the letters a to z only.
- One synchronous method reads the clock once, where the code may read it several times within the same millisecond.
- Provider adapters, HTTP calls and quote fetching, where adapters may record requests of their own.
- Choice of the provider order by score: any order is allowed in a run.
- Manual clearing of a breaker, for which nothing in the repository makes a call.
- Counters and timestamps of the metrics that no decision reads (last success, request totals, exported health scores).
- Synthetic prices, cache refresh timers and the quote cache.
- The rest of the trading engine (risk limits, order routing, trade supervision), the broker bridge and the 18-layer readiness test: their answers are arbitrary.
- The smart-exit decision itself (opposite direction and thresholds), a plain conjunction of tests; evaluations end at any time with any outcome.
- Trades that others open through the engine (the HTTP route, the engine's own orchestration), and edits of a trade's status other than closing it.
- A connectivity check that throws.
- Sharpe ratio, standard deviation, win rate, profit factor and expectancy, which are single formulas.
- Indicators other than regression, swings and clustering, news and threshold scoring, market rules, pair catalogues, walk-forward slicing.
- The server, configuration parsing, logging, WebSocket messages, database migrations and the dashboard.
