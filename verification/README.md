# trading_smt signal core in Dafny

This project models the signal-detection and signal-gating logic of the
trading_smt backend and proves properties about it. That backend is a
FastAPI service that looks for "smart money" patterns in ES/NQ and QQQ/SPY
price bars. The model covers:

- **Fractal detection.** `BaseAnalyzer._get_fractals` finds strict local
  highs and lows and keeps the last five of each (`fractals.dfy`).
- **SMT divergence.** `SMTAnalyzer.analyze` compares the last two fractals
  of ES and NQ. `_check_confirmation` checks the candle colours
  (`smt_divergence.dfy`).
- **Volume anomalies.** `VolumeAnalyzer.analyze` flags spikes among the
  last five bars and sub-classifies them (`volume_anomaly.dfy`).
- **The aggregation pipeline.** `SmartMoneyService.analyze` gates on the
  trading session, concatenates the detectors' outputs, filters them by
  strength, sorts them stably in descending order and truncates the list.
  The service also filters cached signals at read time (`smart_money.dfy`).
- **The older detector suite** in `services/smt_analyzer.py`:
  - the killzone table, the current zone and the next session
    (`killzones.dfy`);
  - the close-change divergence, structure break, order blocks,
    fair-value gaps and quarterly signal (`legacy_detectors.dfy`);
  - `analyze_all`, which concatenates all of the above
    (`legacy_analysis.dfy`).
- **The settings singleton** `SettingsManager`: its defaults, `update`,
  `to_dict`, and construction that always yields the same object
  (`settings_store.dfy`).
- **The settings-update schema.** Inclusive numeric ranges, the
  priorities list, `%H:%M` times and the response defaults
  (`settings_schema.dfy`).
- **The signals endpoint** (`signal_feed.dfy`): the query filters, the
  mapping to frontend types, the response records and the statistics.
- **Three time classifiers:**
  - the quarter phase (`market_phase.dfy`);
  - the minute-based market state (`market_state.dfy`);
  - the hour-based market state (`market_state.dfy`).

Shared shapes live in `market_data.dfy`: bars, the two signal records,
market maps kept in insertion order, clock times in microseconds, and
dates. Python's semantics live in `py_semantics.dfy`: clamped slicing,
list comprehensions as `Filter`, stable `sorted(..., reverse=True)`,
`min`, `str(int)`, and exceptions as an `Outcome` value.

Some things are passed in as parameters rather than modelled:

- **The clock.** `datetime.now` becomes a `TimeOfDay`, a `Date` and an
  opaque timestamp string.
- **The Redis cache.** It becomes an `Option<seq<Signal>>` of stored
  signals.
- **The settings.** The detectors read them as a settings record.
- **The pandas statistics.** The rolling volume standard deviation and
  the ATR are inputs.

Prices and volumes are `real`. Where Python would raise
`ZeroDivisionError` or compute with NaN, a precondition asks for positive
prices or a positive mean volume instead.

Dafny members that model a Python operation "as written" reproduce the
code even where it cannot work, for example by raising `AttributeError`.
The corrected member next to each one is what the rest of the model uses.
See "## Findings".

## Model

| member | source | states |
|---|---|---|
| Fractals.FractalLists | backend/app/analyzers/base.py:15-30 | fewer than five bars give two empty lists whatever `look_back` is; each list holds at most five entries |
| Fractals.GetFractals | backend/app/analyzers/base.py:15-30 | the loop over `range(look_back, len - look_back)` with its two appends and `[-5:]` returns exactly the fractal lists, empty below five bars |
| Fractals.ScanSound | backend/app/analyzers/base.py:21-28 | every reported entry has an index in [look_back, len - look_back), is a strict extremum of its ±look_back window, and is (index, that bar's high or low, its timestamp) |
| Fractals.ScanComplete | backend/app/analyzers/base.py:21-28 | every strict extremum in the scanned range is reported, so the scan misses nothing |
| Fractals.ScanAscending | backend/app/analyzers/base.py:21-28 | entries come out in strictly ascending index order |
| Fractals.FractalsSeparated | backend/app/analyzers/base.py:24-27 | two fractals of the same side are more than look_back indices apart |
| Fractals.TieDisqualifies | backend/app/analyzers/base.py:24-25 | a window neighbour with an equal high (low) disqualifies the bar |
| Fractals.IsFractal | backend/app/analyzers/base.py:24-28 | a strict high (low) fractal: the bar lies in the scanned range and beats every other bar of its ±look_back window; ScanSound and ScanComplete show the scan reports exactly these bars |
| Fractals.Scan | backend/app/analyzers/base.py:21-28 | the appends of the loop up to a position; ScanSound, ScanComplete and ScanAscending give its contract: exactly the fractals, in ascending order |
| Fractals.Kept | backend/app/analyzers/base.py:30 | `fractals[-5:]`; KeptSound, KeptGenuine, KeptAscending and KeptAreLatest give its contract: the latest min(5, n) fractals |
| Fractals.KeptSound | backend/app/analyzers/base.py:30 | the kept list has min(5, number of fractals) entries, all genuine fractals, in ascending order |
| Fractals.KeptGenuine | backend/app/analyzers/base.py:30 | every kept entry is a genuine fractal entry of its bar |
| Fractals.KeptAscending | backend/app/analyzers/base.py:30 | the kept list is ascending |
| Fractals.KeptAreLatest | backend/app/analyzers/base.py:21-30 | a fractal that is not kept is older than every kept one, and then five are kept |
| SmtDivergence.ConfirmationSound | backend/app/analyzers/smt_analyzer.py:56-69 | false when either series is shorter than `confirmation_candles`; otherwise, for a positive count, true iff the last min(count, 2) bars of both series close at or above (bullish) or at or below (bearish) their open |
| SmtDivergence.Confirmation | backend/app/analyzers/smt_analyzer.py:56-69 | the candle-colour check; ConfirmationSound gives its contract |
| SmtDivergence.InspectedIsTail | backend/app/analyzers/smt_analyzer.py:63-67 | `bars[-conf:][-2:]` is the last min(conf, 2) bars |
| SmtDivergence.DivergencePct | backend/app/analyzers/smt_analyzer.py:22 | the percentage is non-negative and zero exactly when the two fractal prices are equal |
| SmtDivergence.DirectionSignal | backend/app/analyzers/smt_analyzer.py:20-52 | at most one signal per direction; present iff the fractals diverge, the percentage reaches the threshold and the clamped strength reaches the minimum; the signal's type, percentage, strength in [0, 1], last closes and confirmation are as computed |
| SmtDivergence.Divergences | backend/app/analyzers/smt_analyzer.py:13-54 | at most two signals |
| SmtDivergence.DivergencesSound | backend/app/analyzers/smt_analyzer.py:13-54 | nothing when either instrument has fewer than two high or two low fractals, or fewer than five bars; bullish before bearish; each signal meets both thresholds, has strength in [0, 1] and the last closes, and its fractals diverge in its direction |
| SmtDivergence.Analyze | backend/app/analyzers/smt_analyzer.py:7-54 | the method with its conditional appends returns exactly `Divergences`, at most two signals |
| SmtDivergence.AnalyzeAsWrittenNeverReturns | backend/app/analyzers/smt_analyzer.py:8 | as written, `analyze` never returns: it always raises, and a caller that catches gets `[]` |
| SmtDivergence.AnalyzeAsWritten | backend/app/analyzers/smt_analyzer.py:7-11 | `analyze` as written raises AttributeError on every input; AnalyzeAsWrittenNeverReturns states it |
| VolumeAnomaly.RollingMean | backend/app/analyzers/volume_analyzer.py:13 | the 20-bar mean is defined exactly at positions 19 .. len - 1 |
| VolumeAnomaly.Threshold | backend/app/analyzers/volume_analyzer.py:20 | with non-negative multiplier and deviation, the threshold is at least the mean |
| VolumeAnomaly.Classify | backend/app/analyzers/volume_analyzer.py:23-29 | one of three kinds; bearish divergence iff higher high with lower volume; bullish divergence iff not that, but a lower low with lower volume |
| VolumeAnomaly.SpikesBetween | backend/app/analyzers/volume_analyzer.py:18-22 | only positions in range whose volume is strictly above the threshold, in increasing order |
| VolumeAnomaly.SpikesComplete | backend/app/analyzers/volume_analyzer.py:18-22 | every spike position in range is listed |
| VolumeAnomaly.SpikeMeanPositive | backend/app/analyzers/volume_analyzer.py:34 | with non-negative volumes, a spike has a positive mean, so the ratio is defined |
| VolumeAnomaly.VolumeRatio | backend/app/analyzers/volume_analyzer.py:37 | the ratio is non-negative and above one when the volume exceeds the mean |
| VolumeAnomaly.SignalForDescribes | backend/app/analyzers/volume_analyzer.py:31-38 | a spike's signal has the classified kind, strength min(ratio/3, 1) in [0, 1], the bar's close as both prices and the ratio in its details |
| VolumeAnomaly.SignalsMatchSpikes | backend/app/analyzers/volume_analyzer.py:18-38 | the signals correspond one-to-one, in order, to the spike positions |
| VolumeAnomaly.VolumeSignalsBounded | backend/app/analyzers/volume_analyzer.py:9-18 | nothing below 20 bars; at most five signals |
| VolumeAnomaly.VolumeSignalsDescribeSpikes | backend/app/analyzers/volume_analyzer.py:18-38 | the k-th signal describes the k-th spike among the last five bars |
| VolumeAnomaly.SignalDescribesSpike | backend/app/analyzers/volume_analyzer.py:31-38 | the k-th signal of a range describes the k-th spike of that range |
| VolumeAnomaly.VolumeSignalsWellFormed | backend/app/analyzers/volume_analyzer.py:23-38 | every signal has strength in [0, 1], equal ES and NQ prices and one of the three volume kinds |
| VolumeAnomaly.VolumeSignals | backend/app/analyzers/volume_analyzer.py:8-40 | the corrected analyzer's output; VolumeSignalsBounded, VolumeSignalsDescribeSpikes and VolumeSignalsWellFormed give its contract |
| VolumeAnomaly.SpikeCount | backend/app/analyzers/volume_analyzer.py:18 | a range holds at most as many spikes as positions |
| VolumeAnomaly.Analyze | backend/app/analyzers/volume_analyzer.py:8-40 | the loop over i = -5 .. -1, which reassigns `signal_type` and appends, returns exactly the specified signals |
| VolumeAnomaly.AnalyzeAsWritten | backend/app/analyzers/volume_analyzer.py:9-15 | as written, it returns only below 20 bars; otherwise `settings.get` raises |
| VolumeAnomaly.AnalyzeAsWrittenYieldsNothing | backend/app/analyzers/volume_analyzer.py:15 | caught, the as-written analyzer yields no signal for any input |
| SmartMoney.IsActiveSession | backend/app/services/smart_money_service.py:52-57 | the three inclusive windows together are active exactly up to 22:00:00 |
| SmartMoney.Rank | backend/app/services/smart_money_service.py:38-43 | filter by threshold, stable descending sort, cut to `max_signals`; RankSound, RankKeepsStrongest and RankKeepsTieOrder give its contract |
| SmartMoney.RankSound | backend/app/services/smart_money_service.py:37-43 | every result meets the threshold; non-increasing strengths; exactly min(`max_signals`, number passing) results; nothing invented or duplicated; all passing signals kept when they fit |
| SmartMoney.RankKeepsStrongest | backend/app/services/smart_money_service.py:43 | a passing signal left out is no stronger than any signal kept |
| SmartMoney.RankKeepsTieOrder | backend/app/services/smart_money_service.py:43 | signals of equal strength keep their concatenation order (the sort is stable) |
| SmartMoney.Analyze | backend/app/services/smart_money_service.py:21-50 | nothing without ES=F and NQ=F or outside the session; otherwise the ranked SMT, ES-volume and NQ-volume signals: above the threshold, non-increasing, at most `max_signals` |
| SmartMoney.AnalyzeAsWrittenIsEmpty | backend/app/services/smart_money_service.py:33-50 | as written, `analyze` returns `[]` for every input |
| SmartMoney.AnalyzeAsWritten | backend/app/services/smart_money_service.py:21-50 | `analyze` as written, with its handler; AnalyzeAsWrittenIsEmpty shows it returns `[]` |
| SmartMoney.CachedSignals | backend/app/services/smart_money_service.py:68-78 | the intended cached read; CachedSignalsSound gives its contract |
| SmartMoney.CachedSignalsSound | backend/app/services/smart_money_service.py:68-78 | a cached read returns the first min(`limit`, n) of the n stored signals that meet the threshold, in stored order; nothing without a cache entry |
| SmartMoney.CachedSignalsAsWrittenIsEmpty | backend/app/services/smart_money_service.py:74-78 | as written, a cached read returns `[]` |
| SmartMoney.CachedSignalsAsWritten | backend/app/services/smart_money_service.py:68-78 | the cached read as written: `[]` without a cache entry, AttributeError with one; CachedSignalsAsWrittenIsEmpty shows the caught result is `[]` |
| Killzones.FirstContaining | backend/app/services/smt_analyzer.py:67-71 | the result is the first table entry whose inclusive window contains the time, or none |
| Killzones.CurrentEntry | backend/app/services/smt_analyzer.py:61-71 | the zone the `break` loop finds; FirstContaining and GetKillzoneInfo give its contract |
| Killzones.NextAfter | backend/app/services/smt_analyzer.py:83-90 | the first zone in table order that starts later, else asia; GetNext and NextIsAlwaysAsia give its contract |
| Killzones.GetNext | backend/app/services/smt_analyzer.py:83-88 | the loop returns the first zone in table order that starts strictly later, else asia |
| Killzones.NextIsAlwaysAsia | backend/app/services/smt_analyzer.py:53-88 | asia comes first and starts at 20:00, later than every other zone, so `_get_next` always answers asia |
| Killzones.RemainingParts | backend/app/services/smt_analyzer.py:99-102 | minutes < 60, and the hours and minutes floor the remaining time within one minute |
| Killzones.CalcRemaining | backend/app/services/smt_analyzer.py:92-104 | "Market closed" outside a zone, else `"{h}h {m}m"` of the remaining time; RemainingParts and RemainingWithinZone give its contract |
| Killzones.RemainingWithinZone | backend/app/services/smt_analyzer.py:96-102 | inside a zone, the reported time fits between now and the zone's end, and within the zone's length |
| Killzones.GetKillzoneInfo | backend/app/services/smt_analyzer.py:61-78 | outside every zone: no zone, low priority, "Market closed"; inside: the first containing zone and its priority; plus the remaining time and the next session |
| Killzones.AsiaWinsOverNyPm | backend/app/services/smt_analyzer.py:53-71 | from 20:00 to 21:00 both asia and ny_pm contain the time, and asia is reported |
| Killzones.ClosedExactly | backend/app/services/smt_analyzer.py:53-71 | no zone holds exactly before 02:00, in the three gaps between zones, and after 23:59 |
| LegacyDetectors.PercentChange | backend/app/services/smt_analyzer.py:121-122 | the change is positive iff the last close is above the first, and zero iff they are equal |
| LegacyDetectors.DetectDivergence | backend/app/services/smt_analyzer.py:107-139 | at most one signal |
| LegacyDetectors.DetectDivergenceSignals | backend/app/services/smt_analyzer.py:112-135 | nothing when either series is shorter than `lookback_period`; each signal has strength in [0, 1], a percentage at least the threshold, and the last closes |
| LegacyDetectors.DetectDivergenceSound | backend/app/services/smt_analyzer.py:112-135 | with enough bars, a signal iff the change difference reaches the threshold; bullish iff NQ changed more; strength min(div/2, 1); confirmed iff div > 2·threshold |
| LegacyDetectors.DivergenceOfSound | backend/app/services/smt_analyzer.py:121-135 | the same, over the two windows themselves |
| LegacyDetectors.RollingHigh | backend/app/services/smt_analyzer.py:154 | the centred 3-bar high exists exactly at 1 .. len - 2 and is the largest of the three highs |
| LegacyDetectors.RollingLow | backend/app/services/smt_analyzer.py:155 | the centred 3-bar low exists exactly at 1 .. len - 2 and is the smallest of the three lows |
| LegacyDetectors.HighestCovers | backend/app/services/smt_analyzer.py:157 | the window maximum exists and bounds every defined rolling high in it |
| LegacyDetectors.LowestCovers | backend/app/services/smt_analyzer.py:158 | the window minimum exists and bounds every defined rolling low in it |
| LegacyDetectors.BreakOf | backend/app/services/smt_analyzer.py:160-181 | at most one break, present iff the close clears the high by the threshold or falls below the low by it; bullish checked first; strength 1.0, confirmed, level and type in the details |
| LegacyDetectors.MssOver | backend/app/services/smt_analyzer.py:142-166 | at most one signal |
| LegacyDetectors.MssOverSound | backend/app/services/smt_analyzer.py:147-164 | with enough bars, a break over a window is reported iff the close clears that window's high or low |
| LegacyDetectors.DetectMssAsWritten | backend/app/services/smt_analyzer.py:142-169 | `detect_mss` with the window `[-swings-1:-1]` as written; MssAsWrittenNeverFires shows it never fires on coherent bars |
| LegacyDetectors.DetectMss | backend/app/services/smt_analyzer.py:142-169 | `detect_mss` with the corrected window `[-swings-2:-2]`; DetectMssSound, DetectMssSignals and DetectMssNeedsBars give its contract |
| LegacyDetectors.MssAsWrittenNeverFires | backend/app/services/smt_analyzer.py:154-164 | as written, on bars with low ≤ close ≤ high and a non-negative threshold, `detect_mss` never reports a break |
| LegacyDetectors.LevelsEnclosePrice | backend/app/services/smt_analyzer.py:161-164 | levels that enclose the price cannot be broken |
| LegacyDetectors.MssLevelsIgnoreLastBar | backend/app/services/smt_analyzer.py:157-158 | the corrected levels do not depend on the last bar |
| LegacyDetectors.DetectMssNeedsBars | backend/app/services/smt_analyzer.py:147-152 | fewer than 2·`lookback_swings` bars, or none, give no break |
| LegacyDetectors.DetectMssSignals | backend/app/services/smt_analyzer.py:171-181 | a break is a confirmed `mss_break` of strength 1.0 at the last close |
| LegacyDetectors.DetectMssSound | backend/app/services/smt_analyzer.py:156-164 | with enough bars, the corrected detector reports a break iff the close clears the recent high or low by the threshold |
| LegacyDetectors.MssBreakoutExample | backend/app/services/smt_analyzer.py:154-164 | a breakout after nine flat bars is missed as written and reported as a bullish break of 100 by the corrected window |
| LegacyDetectors.BlockSignalSound | backend/app/services/smt_analyzer.py:206-220 | an order block signal has the bar's close, strength min(ratio/3, 1) in [0, 1] for non-negative volume, confirmed iff ratio > 2·threshold, bullish iff close > open |
| LegacyDetectors.BlocksBetweenSound | backend/app/services/smt_analyzer.py:200-205 | the blocks of a range are exactly the bars in it that clear both thresholds, at most one per bar |
| LegacyDetectors.OrderBlocks | backend/app/services/smt_analyzer.py:184-224 | the order blocks of the last bars; OrderBlocksExact and OrderBlocksSound give its contract |
| LegacyDetectors.OrderBlocksExact | backend/app/services/smt_analyzer.py:189-205 | nothing below 20 bars; otherwise a signal for every qualifying bar at positions -5 .. -2 and for no other |
| LegacyDetectors.OrderBlocksSound | backend/app/services/smt_analyzer.py:200-220 | at most four order blocks, each with a strength in [0, 1] |
| LegacyDetectors.BlocksBetweenStrengths | backend/app/services/smt_analyzer.py:209 | over non-negative volumes every block of a range has a strength in [0, 1] |
| LegacyDetectors.DetectOrderBlocks | backend/app/services/smt_analyzer.py:184-224 | the loop over -5 .. -2 returns exactly the specified blocks |
| LegacyDetectors.DetectFvg | backend/app/services/smt_analyzer.py:234-259 | returns `[]` for every input, because the second iteration indexes past the end and the error is caught |
| LegacyDetectors.MovesSumZeroIffFlat | backend/app/services/smt_analyzer.py:302-303 | the summed relative moves are non-negative and zero iff the closes never change |
| LegacyDetectors.MoveZeroIffEqual | backend/app/services/smt_analyzer.py:302 | one relative move is non-negative and zero iff the closes are equal |
| LegacyDetectors.Volatility | backend/app/services/smt_analyzer.py:298-303 | the mean absolute relative move in percent; VolatilitySound gives its contract |
| LegacyDetectors.VolatilitySound | backend/app/services/smt_analyzer.py:298-303 | the volatility is defined, non-negative, and zero iff the closes are flat |
| LegacyDetectors.QuarterOf | backend/app/services/smt_analyzer.py:291 | the quarter is 1..4 and contains the month |
| LegacyDetectors.QuarterlySignals | backend/app/services/smt_analyzer.py:280-293 | at most one signal |
| LegacyDetectors.QuarterlySignalsSound | backend/app/services/smt_analyzer.py:274-296 | a signal iff the month and day are listed and there are at least five bars; it is a confirmed `quarterly_shift` of strength 0.9 at the last close, with its quarter in the details |
| LegacyAnalysis.SnapshotSignalsSound | backend/app/services/smt_analyzer.py:327-330 | one snapshot yields at most six signals, strengths in [0, 1], no fair-value gap and no divergence |
| LegacyAnalysis.SnapshotsSignalsSound | backend/app/services/smt_analyzer.py:326-330 | n snapshots yield at most 6n such signals |
| LegacyAnalysis.AllSignals | backend/app/services/smt_analyzer.py:315-337 | what `analyze_all` returns, with the corrected structure-break window; AllSignalsSound gives its contract |
| LegacyAnalysis.AllSignalsSound | backend/app/services/smt_analyzer.py:315-334 | nothing without QQQ and SPY; at most 1 + 6·(number of snapshots) signals; strengths in [0, 1]; no fair-value gap; every divergence signal is the QQQ/SPY comparison's |
| LegacyAnalysis.DivergenceKinds | backend/app/services/smt_analyzer.py:128 | a close-change divergence is bullish or bearish |
| LegacyAnalysis.ExtendWithSnapshots | backend/app/services/smt_analyzer.py:326-330 | the loop's four `extend` calls per snapshot append exactly that snapshot's signals, in order |
| LegacyAnalysis.AnalyzeAll | backend/app/services/smt_analyzer.py:315-337 | `analyze_all` returns the divergence followed by every snapshot's signals, unfiltered and unsorted; the structure breaks use the corrected window `[-swings-2:-2]`, not `[-swings-1:-1]` as written (see "## Findings") |
| MarketData.Lookup | backend/app/services/smt_analyzer.py:317-318 | `dict.get` finds a value iff the key is present, and the value is one of the map's values |
| MarketData.Values | backend/app/services/smt_analyzer.py:326 | `values()` lists the snapshots in insertion order |
| MarketData.HourOf | backend/app/services/market_collector.py:89 | the hour is 0..23 and the time lies within it |
| MarketData.DaysInMonth | backend/app/utils/market_utils.py:9 | every month has 28 to 31 days |
| MarketPhase.QuarterStartMonth | backend/app/utils/market_utils.py:8 | the start month is 1, 4, 7 or 10 and at most two months before the month |
| MarketPhase.DaysInQuarter | backend/app/utils/market_utils.py:8-9 | whole days since the quarter began; DaysInQuarterBounds gives its contract |
| MarketPhase.DaysOfMonths | backend/app/utils/market_utils.py:9 | whole months contribute between 28 and 31 days each |
| MarketPhase.DaysInQuarterBounds | backend/app/utils/market_utils.py:8-9 | the days into the quarter are between 0 and 91, and 91 is reached on 31 December |
| MarketPhase.PhaseBands | backend/app/utils/market_utils.py:10-19 | Q1 iff days ≤ 22.5, Q2 iff 22.5 < days ≤ 45, Q3 iff 45 < days ≤ 67.5, Q4 otherwise |
| MarketPhase.PhaseOf | backend/app/utils/market_utils.py:10-19 | the phase of a day count; PhaseBands and PhaseMonotone give its contract |
| MarketPhase.CurrentPhase | backend/app/utils/market_utils.py:4-21 | the phase name of a date; CurrentPhaseExamples gives concrete values |
| MarketPhase.PhaseMonotone | backend/app/utils/market_utils.py:12-19 | the phase never goes back as the days grow |
| MarketPhase.CurrentPhaseExamples | backend/app/utils/market_utils.py:4-19 | concrete dates give the expected phases, including the leap-year difference in March |
| MarketState.StateByTimeBands | backend/app/services/market_data_collector.py:202-215 | market_hours iff 14:30:00 ≤ t ≤ 21:00:00; pre_market iff earlier; after_market iff later, already at 21:00:00.000001 |
| MarketState.StateByTime | backend/app/services/market_data_collector.py:202-215 | the minute-based classifier; StateByTimeBands gives its contract |
| MarketState.StateByHour | backend/app/services/market_collector.py:87-90 | the hour-based classifier; StateByHourBands gives its contract |
| MarketState.StateByHourBands | backend/app/services/market_collector.py:87-90 | depends only on the hour; market_hours iff 14 ≤ hour ≤ 21; pre_market iff hour < 14; after_market iff hour is 22 or 23 |
| MarketState.ClassifiersDisagree | backend/app/services/market_data_collector.py:207-215 | the two classifiers disagree exactly on 14:00–14:29 and after 21:00:00 until 22:00 |
| PySemantics.Catch | backend/app/services/smart_money_service.py:48-50 | a caught call gives its value, or the fallback when it raised |
| PySemantics.ClampIndex | backend/app/analyzers/base.py:30 | a Python slice bound clamps into [0, n], counting negative bounds from the end |
| PySemantics.SliceFrom | backend/app/analyzers/base.py:30 | `s[k:]` is a suffix of the length Python gives |
| PySemantics.SliceTo | backend/app/services/smart_money_service.py:43 | `s[:k]` is a prefix of the length Python gives |
| PySemantics.SliceRange | backend/app/services/smt_analyzer.py:157 | `s[a:b]` selects clamped bounds, empty when they cross |
| PySemantics.Abs | backend/app/services/smt_analyzer.py:123 | non-negative and ± the argument |
| PySemantics.ClampStrength | backend/app/services/smt_analyzer.py:129 | `min(x, 1.0)` is at most one, non-negative for non-negative x, and x itself up to one |
| PySemantics.FilterCounts | backend/app/smt_analysis_router.py:45 | a comprehension keeps exactly the passing elements, each as often as it occurs |
| PySemantics.FilterConcat | backend/app/services/smart_money_service.py:39 | filtering distributes over concatenation |
| PySemantics.FilterSubsequence | backend/app/smt_analysis_router.py:45 | a comprehension's result is a subsequence of its input |
| PySemantics.SubsequenceTransitive | backend/app/smt_analysis_router.py:44-51 | chained filters still give a subsequence |
| PySemantics.InsertAdds | backend/app/services/smart_money_service.py:43 | one insertion adds the element to the multiset |
| PySemantics.InsertDescending | backend/app/services/smart_money_service.py:43 | insertion keeps a list descending |
| PySemantics.SortSound | backend/app/services/smart_money_service.py:43 | `sorted(reverse=True)` is a permutation into descending order |
| PySemantics.InsertStable | backend/app/services/smart_money_service.py:43 | insertion places the new element last among its equal keys |
| PySemantics.SortStable | backend/app/services/smart_money_service.py:43 | the sort keeps equal keys in input order |
| PySemantics.TopSound | backend/app/services/smart_money_service.py:43 | the first k of the sort are descending, exactly min(k, n) of them, drawn from the input, and all of it when it fits |
| PySemantics.TopKeepsLargest | backend/app/services/smart_money_service.py:43 | an element left out is no larger than any kept one |
| PySemantics.TopKeepsTieOrder | backend/app/services/smart_money_service.py:43 | the kept elements of one key are a prefix of those elements in input order |
| PySemantics.Str | backend/app/services/smt_analyzer.py:102 | `str(n)` is a non-empty run of digits without a leading zero, one digit iff n < 10 |
| PySemantics.StrRoundTrip | backend/app/services/smt_analyzer.py:102 | reading `str(n)` back gives n |
| SettingsStore.KeyNamed | backend/app/core/settings_manager.py:45 | `hasattr` holds for a name iff it is one of the nine settings, and names that setting |
| SettingsStore.Get | backend/app/core/settings_manager.py:45 | reading an attribute succeeds iff the name is a setting |
| SettingsStore.GetSet | backend/app/core/settings_manager.py:46 | after `setattr`, the set setting reads the new value and every other name reads what it did |
| SettingsStore.Set | backend/app/core/settings_manager.py:45-46 | `setattr` when `hasattr`, else no change; GetSet gives its contract |
| SettingsStore.Passed | backend/app/core/settings_manager.py:44 | the value passed for a name is the last keyword argument with that name |
| SettingsStore.Applied | backend/app/core/settings_manager.py:43-46 | the keyword arguments applied in order; AppliedGet, UnknownKeysIgnored and UpdateIdempotent give its contract |
| SettingsStore.AppliedGet | backend/app/core/settings_manager.py:43-46 | after `update`, a passed setting holds its last value; settings not passed keep theirs |
| SettingsStore.UnknownKeysIgnored | backend/app/core/settings_manager.py:43-46 | an update naming no setting changes nothing |
| SettingsStore.UpdateIdempotent | backend/app/core/settings_manager.py:43-46 | applying the same update twice equals applying it once |
| SettingsStore.RequestUpdateChangesNothing | backend/app/settings_router.py:50-56 | the settings endpoint forwards the request's field names, none of which is a setting, so the store is left unchanged |
| SettingsStore.DetectorView | backend/app/core/settings_manager.py:14-28 | the detectors can read the settings iff every attribute still has its default's type; DetectorViewReads ties every field of the view to the stored value |
| SettingsStore.DetectorViewReads | backend/app/core/settings_manager.py:14-28 | each of the nine fields the detectors read is the value stored under that setting's name |
| SettingsStore.DefaultsAreDetectorDefaults | backend/app/core/settings_manager.py:14-28 | the nine defaults are 0.5, 20, 0.5, 5, 0.3, 1.5, 0.2, [1,4,7,10], [1,2,3] as the detectors read them |
| SettingsStore.DictOf | backend/app/core/settings_manager.py:30-41 | the dictionary lists the nine names in order, each with its current value |
| SettingsStore.KeysDistinct | backend/app/core/settings_manager.py:30-41 | exactly nine distinct names |
| SettingsStore.ToDictDetermines | backend/app/core/settings_manager.py:30-41 | equal dictionaries mean equal settings: nothing is hidden from `to_dict` |
| SettingsStore.SettingsManager.constructor | backend/app/core/settings_manager.py:14-28 | a new object holds the defaults |
| SettingsStore.SettingsManager.ToDict | backend/app/core/settings_manager.py:30-41 | `to_dict` returns the dictionary of the current state |
| SettingsStore.SettingsManager.SetAttr | backend/app/core/settings_manager.py:46 | assigns the named setting and nothing else |
| SettingsStore.SettingsManager.Update | backend/app/core/settings_manager.py:43-46 | the new state is the old state with the keyword arguments applied in order |
| SettingsStore.SettingsRegistry.constructor | backend/app/core/settings_manager.py:5 | no instance at first |
| SettingsStore.SettingsRegistry.Instance | backend/app/core/settings_manager.py:7-11 | the first construction creates an object with the defaults; later ones return that same object with its values untouched |
| SettingsSchema.SmallValue | backend/app/schemas/settings.py:41 | a one- or two-digit field reads as its decimal value, below 100 |
| SettingsSchema.ParseTime | backend/app/schemas/settings.py:41 | a parsed `%H:%M` time has hour < 24 and minute < 60 |
| SettingsSchema.ParseTimeGrammar | backend/app/schemas/settings.py:37-43 | a string parses iff it is a 1–2 digit hour below 24, a colon, a 1–2 digit minute below 60 and nothing more, and then it gives those values |
| SettingsSchema.FormatTimeRoundTrip | backend/app/schemas/settings.py:41 | every time written `HH:MM` parses back to itself |
| SettingsSchema.ParseTimeExamples | backend/app/schemas/settings.py:41 | "24:00" and "12:345" are rejected; "7:5", "08:00" and "13:30" are accepted with their values |
| SettingsSchema.RangeErrorsEmpty | backend/app/schemas/settings.py:20-26 | no range error iff every present field is within its bounds |
| SettingsSchema.RangeErrorsExact | backend/app/schemas/settings.py:20-26 | the range errors name exactly the fields out of range |
| SettingsSchema.RangeErrorsOrdered | backend/app/schemas/settings.py:20-26 | the range errors come in declaration order, each once |
| SettingsSchema.Validate | backend/app/schemas/settings.py:18-43 | building the request; ValidateSound gives its contract |
| SettingsSchema.ValidateSound | backend/app/schemas/settings.py:18-43 | accepted iff all checks pass; range errors first, then priorities, then london_open, ny_open and asia_open, each reported exactly when the earlier checks pass and it fails |
| SettingsSchema.AbsentFieldsAccepted | backend/app/schemas/settings.py:20-39 | an empty request, or one with only a valid time, is accepted |
| SettingsSchema.BoundsInclusive | backend/app/schemas/settings.py:20-26 | the fractional bounds are inclusive: each endpoint alone is accepted |
| SettingsSchema.CountBoundsInclusive | backend/app/schemas/settings.py:22-25 | the whole-number bounds are inclusive |
| SettingsSchema.PriorityBoundary | backend/app/schemas/settings.py:33-35 | the empty priority list is accepted; a zero priority is rejected |
| SettingsSchema.TimeBoundary | backend/app/schemas/settings.py:37-43 | "24:00" is rejected as `london_open` |
| SettingsSchema.ResponseDefaultsValid | backend/app/schemas/settings.py:5-16 | a response built with the defaults is valid iff the three non-default fields are in range, and its default times parse as 08:00, 13:30 and 00:00 |
| SignalFeed.StageOrder | backend/app/smt_analysis_router.py:44-51 | each filter stage only removes signals and never reorders them |
| SignalFeed.StageCount | backend/app/smt_analysis_router.py:44-51 | a stage keeps every copy of a passing signal and no copy of a failing one |
| SignalFeed.Feed | backend/app/smt_analysis_router.py:42-51 | the three query filters in order; FeedOrder, FeedCounts and FeedSound give its contract |
| SignalFeed.FeedOrder | backend/app/smt_analysis_router.py:42-51 | the filtered list is a subsequence of the cached list |
| SignalFeed.FeedCounts | backend/app/smt_analysis_router.py:42-51 | the filtered list keeps every copy of a signal meeting the query and no other |
| SignalFeed.FeedSound | backend/app/smt_analysis_router.py:44-51 | every result has the requested type, the minimum strength and, if asked, confirmation |
| SignalFeed.VolumeBearishIsNotBullish | backend/app/smt_analysis_router.py:56-58 | `volume_divergence_bearish` does not contain "bullish" |
| SignalFeed.FrontendType | backend/app/smt_analysis_router.py:53-61 | the frontend type of a signal type; BullishTypes, BearishTypes, VolumeBearishType, OtherTypes and FrontendTypeOfKind give its contract |
| SignalFeed.BullishTypes | backend/app/smt_analysis_router.py:56-57 | every type containing "bullish", the volume one included, maps to `bullish_divergence` |
| SignalFeed.BearishTypes | backend/app/smt_analysis_router.py:58-59 | the SMT and Judas bearish types map to `bearish_divergence` |
| SignalFeed.VolumeBearishType | backend/app/smt_analysis_router.py:56-60 | `volume_divergence_bearish` maps to `bearish_divergence`, because "bearish" is checked before "volume" |
| SignalFeed.OtherTypes | backend/app/smt_analysis_router.py:55-61 | `volume_spike` maps to `volume_anomaly`; the false-break types are unchanged |
| SignalFeed.FrontendTypeOfKind | backend/app/smt_analysis_router.py:53-61 | the frontend type of each of the nine signal types |
| SignalFeed.BuildResponses | backend/app/smt_analysis_router.py:53-72 | returns iff every strength is in [0, 1], and then one response per signal, in order, with the mapped type and the NQ and ES prices; otherwise a validation error |
| SignalFeed.GetSmtSignals | backend/app/smt_analysis_router.py:38-85 | the response lists the filtered cached signals, and its `total_count` equals their number; the market phase is today's; a strength outside [0, 1] gives an error |
| SignalFeed.NotAKey | backend/app/smt_analysis_router.py:100 | `dict.get(k, 0)` is 0 for an absent key |
| SignalFeed.BumpCounts | backend/app/smt_analysis_router.py:100 | one increment adds one to its key's count and leaves every other count alone |
| SignalFeed.BumpShape | backend/app/smt_analysis_router.py:100 | one increment adds its key, keeps keys unique and counts positive, and adds one to the total |
| SignalFeed.Names | backend/app/smt_analysis_router.py:99 | one type name per signal, in order |
| SignalFeed.DistributionShape | backend/app/smt_analysis_router.py:95-101 | the distribution has one positive entry per type present, and its counts sum to the number of signals |
| SignalFeed.DistributionCounts | backend/app/smt_analysis_router.py:95-101 | each count is the number of signals of that type |
| SignalFeed.TotalStrengthBounds | backend/app/smt_analysis_router.py:101 | with strengths in [0, 1], the total lies between 0 and the count |
| SignalFeed.GetSmtStats | backend/app/smt_analysis_router.py:87-111 | the stats loop gives the total, the confirmed count, the distribution, the average (0 when empty) and the first timestamp or now |
| SignalFeed.StatsSound | backend/app/smt_analysis_router.py:93-111 | confirmed ≤ total; the distribution sums to the total and counts each type; the average is in [0, 1] when every strength is |
| SignalFeed.AverageWithinUnit | backend/app/smt_analysis_router.py:103 | a total between 0 and a positive count averages into [0, 1] |

## Left out

- The Redis cache is an `Option<seq<Signal>>` parameter. Not modelled: `_cache_signals`, the JSON round trip, and the `smt_signals` and market-data caches.
- Fetching from yfinance, health checks, websockets, background tasks and the HTTP routers other than the signals endpoint are I/O or wiring with no computed logic, so they are not modelled.
- The exception handler that turns errors into HTTP status 500 is not modelled. A raised `ValidationError` in `GetSmtSignals` stands for it.
- The rolling standard deviation of volume and the ATR are inputs. Computing them needs square roots and NaN handling. The 20-bar mean of volume is computed.
- Floating point is modelled as `real`. Where Python divides by zero or gets NaN, a precondition asks for positive prices or a positive mean volume instead.
- `datetime.now`, `date.today` and `isoformat` become parameters: a time of day in microseconds, a `Date`, and an opaque timestamp.
- SettingsStore.KeyNamed: `hasattr` also accepts method names such as `to_dict`; the model accepts only the nine setting names.
- SettingsStore.SettingsManager.SetAttr: only assignments to the nine settings are modelled, not new attributes.
- SettingsSchema.ParseTime: `strptime` also accepts non-ASCII digits, which the model does not. Pydantic's type coercion of request values is not modelled either.
- SignalFeed.GetSmtSignals: the route checks the `min_strength` query bounds before the handler runs; the model takes any value. `getattr` defaults for missing signal attributes are not needed, because the signal record always has them.
- MarketPhase.CurrentPhaseExamples: the `except` branch of `get_current_market_phase` cannot be reached for a valid date, so it is not modelled.
- The `details=None` default of `Signal` is not modelled: every producer in the core fills `details`.
- The `SettingsResponse` merge in the settings router is not modelled. Only the response's own constraints are modelled, in `ResponseDefaultsValid`.
- LegacyAnalysis.AnalyzeAll: its structure breaks come from the corrected window `[-swings-2:-2]` (LegacyDetectors.DetectMss), not from the window `[-swings-1:-1]` the code uses, which never reports a break on bars whose close lies within their range (LegacyDetectors.MssAsWrittenNeverFires); the as-written detector stays in the model as LegacyDetectors.DetectMssAsWritten.
- LegacyDetectors.DetectFvg is modelled as written. It always returns `[]`, and the intended gap rule is not modelled.

## Findings

| source | as written | input that shows it | evidently intended | confidence | as-written member | corrected member |
|---|---|---|---|---|---|---|
| backend/app/analyzers/smt_analyzer.py:8 | `analyze` calls `_merge_settings`, which no class defines, and passes `custom_params` to `_get_fractals`, which does not accept it | any ES and NQ bars | read the divergence and strength thresholds and the confirmation count from settings | not executed; high | SmtDivergence.AnalyzeAsWrittenNeverReturns | SmtDivergence.Analyze |
| backend/app/analyzers/volume_analyzer.py:15 | `self.settings.get(...)`, but `SettingsManager` has no `get` method | any series of 20 or more bars | use `volume_multiplier` with default 1.5 | not executed; high | VolumeAnomaly.AnalyzeAsWrittenYieldsNothing | VolumeAnomaly.Analyze |
| backend/app/services/smart_money_service.py:38 | the SMT detector raises before the settings are read at lines 38 and 42, and the error is caught, so `analyze` returns `[]` | ES=F and NQ=F present, at 12:00 | filter by `smt_strength_threshold` (0.7), then keep the top `max_signals_display` (10) | not executed; high | SmartMoney.AnalyzeAsWrittenIsEmpty | SmartMoney.Analyze |
| backend/app/services/smart_money_service.py:74 | `self.settings.get` raises, and the error is caught, so a cached read returns `[]` | any non-empty cache entry | the stored signals at or above the threshold, at most `limit` | not executed; high | SmartMoney.CachedSignalsAsWrittenIsEmpty | SmartMoney.CachedSignalsSound |
| backend/app/services/smt_analyzer.py:154-158 | the centred 3-bar window at position len-2 includes the last bar, so the recent high is at least the close and the recent low at most it | nine bars (95, 100, 90, 95) then one bar (100, 110, 100, 110), with 5 swings and 0.5 % | compare the close with levels the last bar does not influence: the window `[-swings-2:-2]` | not executed; medium | LegacyDetectors.MssBreakoutExample | LegacyDetectors.DetectMssSound |
