# Stock dashboard indicators and split adjustment, in Dafny

This project models the computational core of the stock dashboard: the technical
indicator library (`src/lib/utils/indicators.ts`) and the stock-split adjuster
(`src/lib/utils/split-adjust.ts`), and proves properties of the model.

- **Series transforms.** `sma`, `ema`, `rsi`, `macd` and `bollingerBands` each
  produce a series as long as the closes. A position without enough history holds
  `None` (the source's `null`). Each imperative loop of the source is a Dafny
  `method` with loop invariants. Each method is proved equal to a specification
  function (`Sma`, `EmaAt`, `RsiAt`, `MacdLine`/`SignalAt`/`HistogramAt`,
  `UpperAt`/`LowerAt`). The lemmas then state the shape and arithmetic facts
  about those functions.
- **`calcAtr`.** The mean of the last `period` true ranges, or `None`.
- **Swing points.** `findSwingHighs` / `findSwingLows`, and the support and
  resistance levels taken from them.
- **`analyzeStock`.** Modelled as two steps:
  - `ReadIndicators` reads every indicator at the latest bar into a `Snapshot`.
  - `ApplyRules` applies the rules: the market structure, the verdict from the
    two buy setups and the two sell setups, the ordered reasons, the levels, and
    the ATR stop and target.
  - The predicate `Explains(s, a)` states everything the rules promise. Both
    methods are proved against it.
- **`detectSignals`.** The latest readings go into a `Readings` record. Five
  checks each append at most one `Signal`: RSI, SMA cross, MACD, Bollinger and
  volume.
- **`adjustForSplits`.** Works over `array<DailyBar>`:
  - it copies the bars into a fresh array;
  - a loop compares each open with the previous close;
  - on a detected split it rescales all earlier bars in place (`DivideBefore`,
    `MultiplyBefore`).
  - The method is proved equal to the specification function `Adjusted`. The
    lemmas prove the frame, the detection and idempotence.

Modules:

| module | file | role |
|---|---|---|
| `Wrappers` | `wrappers.dfy` | `Option` |
| `Numeric` | `numeric.dfy` | sums, `Round` (`Math.round`), `Max`/`Min`, `IsSqrt`, small arithmetic lemmas |
| `Bars` | `bars.dfy` | `DailyBar` and its column projections |
| `Indicators` | `indicators.dfy` | SMA, EMA, RSI, MACD, Bollinger bands, ATR |
| `Swings` | `swings.dfy` | swing highs and lows |
| `Levels` | `levels.dfy` | support and resistance levels |
| `Tones` | `tones.dfy` | the bullish / bearish / neutral tone of reasons and signals |
| `Analysis` | `analysis.dfy` | `analyzeStock` |
| `Signals` | `signals.dfy` | `detectSignals` |
| `SplitAdjust` | `split_adjust.dfy` | `adjustForSplits` |

Prices are exact `real`s. `Math.round(x)` is `Floor(x + 1/2)`. `Math.sqrt` is a
parameter `sqrt: real -> real`. Where a property depends on it, the predicate
`IsSqrt(sqrt)` states that on every non-negative argument x the result is
non-negative and squares back to x.

## Model

| member | source | states |
|---|---|---|
| Indicators.Sma | src/lib/utils/indicators.ts:4-10 | the SMA series is as long as the data; entry i is None exactly when i < period − 1 |
| Indicators.SmaWithinWindow | src/lib/utils/indicators.ts:5-9 | every defined SMA lies between any lower and upper bound of the `period` values ending at i |
| Indicators.SmaSlide | src/lib/utils/indicators.ts:5-9 | consecutive SMAs differ by (value entering − value leaving the window) / period |
| Indicators.Ema | src/lib/utils/indicators.ts:13-29 | the EMA loop's result is as long as the data and equals the seed-then-recurrence definition at every index |
| Indicators.EmaMultiplier | src/lib/utils/indicators.ts:15 | the multiplier 2 / (period + 1) lies in (0, 1] |
| Indicators.EmaSeedIsSma | src/lib/utils/indicators.ts:20-22 | the EMA at period − 1 (the seed) equals the SMA there |
| Indicators.EmaWithinRange | src/lib/utils/indicators.ts:17-27 | every defined EMA lies between any bounds of all the data up to its index |
| Indicators.Gains | src/lib/utils/indicators.ts:43-44 | one non-negative gain per close after the first, the positive part of the change |
| Indicators.Losses | src/lib/utils/indicators.ts:43-45 | one non-negative loss per close after the first, the magnitude of a negative change |
| Indicators.Rsi | src/lib/utils/indicators.ts:32-82 | the RSI loop's result is as long as the closes and equals, at each index, the RSI of the plain trailing means |
| Indicators.RsiEntry | src/lib/utils/indicators.ts:52-77 | the `i == period` branch (first `period` gains) and the later branch (last `period` gains) both push the RSI of the trailing window ending at i |
| Indicators.TrailingWindowMean | src/lib/utils/indicators.ts:53-54 | the mean of the first `period` gains at i = period, and of the last `period` gains of the prefix, are both the trailing mean ending at i |
| Indicators.RsiBounded | src/lib/utils/indicators.ts:37-79 | the RSI is defined exactly from index `period` on, and every defined RSI is in [0, 100] |
| Indicators.RsiOfBounded | src/lib/utils/indicators.ts:73-77 | the pushed value lies in [0, 100] and is 100 exactly when the average loss is 0 |
| Indicators.RsiHundredIff | src/lib/utils/indicators.ts:69-77 | the RSI at i is 100 exactly when the `period` losses ending at i are all zero |
| Indicators.TrailingMeanZeroIff | src/lib/utils/indicators.ts:70-73 | a mean of non-negative terms is 0 exactly when every term of the window is 0 |
| Indicators.RsiOfConstantSeries | src/lib/utils/indicators.ts:37-77 | on a constant series every defined RSI is 100 |
| Indicators.MacdLine | src/lib/utils/indicators.ts:100-104 | the MACD line is as long as the closes and is fast EMA − slow EMA where both are defined, else None |
| Indicators.DefinedBefore | src/lib/utils/indicators.ts:106-118 | for a defined MACD entry at i, the number of defined entries before i is a valid index into the filtered values, and that entry is the value at i |
| Indicators.Macd | src/lib/utils/indicators.ts:91-126 | `macd` returns the MACD line and, at every index, the signal and histogram of the specification |
| Indicators.SignalLines | src/lib/utils/indicators.ts:109-123 | the `signalIdx` loop yields exactly the specified signal and histogram at each index |
| Indicators.MacdEntry | src/lib/utils/indicators.ts:114-122 | one loop step: None/None for an undefined MACD entry, else `signalEma[signalIdx] ?? null` and MACD − signal |
| Indicators.DefinedMacdCount | src/lib/utils/indicators.ts:100-106 | no MACD value is defined before max(fast, slow) − 1, and every one from there on is |
| Indicators.MacdShape | src/lib/utils/indicators.ts:91-126 | the line is defined iff i ≥ MacdStart; the k-th defined value is the line at MacdStart + k; the signal is defined iff i ≥ MacdStart + signal − 1; the histogram is defined iff the signal is, and then equals MACD − signal |
| Indicators.DefaultHistogramStart | src/lib/utils/indicators.ts:93-95 | with (12, 26, 9) the histogram is defined exactly from index 33 |
| Indicators.BollingerBands | src/lib/utils/indicators.ts:135-159 | the middle band is the SMA; the upper and lower bands have the input's length and equal the specification at each index |
| Indicators.SquaredDeviationsNonNegative | src/lib/utils/indicators.ts:152 | the sum of squared deviations is non-negative |
| Indicators.BandsSymmetric | src/lib/utils/indicators.ts:144-156 | upper and lower are defined exactly where the middle is; upper − middle = middle − lower; with stdDev ≥ 0 and a true square root, upper ≥ middle |
| Indicators.Max2 | src/lib/utils/indicators.ts:166-170 | the maximum is one of its arguments and at least both |
| Indicators.TrueRanges | src/lib/utils/indicators.ts:165-172 | one non-negative true range per bar after the first |
| Indicators.CollectTrueRanges | src/lib/utils/indicators.ts:164-172 | the true-range loop builds exactly the specified `trs` |
| Indicators.CalcAtr | src/lib/utils/indicators.ts:162-174 | `calcAtr` is None exactly when there are fewer than period + 1 bars; otherwise it is the mean of the last `period` true ranges and is non-negative |
| Indicators.AtrNonNegative | src/lib/utils/indicators.ts:166-173 | a defined ATR is non-negative |
| Swings.FindSwingHighs | src/lib/utils/indicators.ts:177-186 | the scan returns exactly the specified swing highs |
| Swings.FindSwingLows | src/lib/utils/indicators.ts:188-197 | the scan returns exactly the specified swing lows |
| Swings.SwingHighsSound | src/lib/utils/indicators.ts:179-183 | every reported high has an index in [window, len − window), carries `data[idx]`, and is ≥ every value of its window; indices strictly increase |
| Swings.SwingHighsComplete | src/lib/utils/indicators.ts:179-183 | every index in the scan range whose value tops its window is reported, so a plateau yields one point per index |
| Swings.SwingHighsExact | src/lib/utils/indicators.ts:177-186 | swing highs are sound, strictly increasing and complete |
| Swings.SwingLowsSound | src/lib/utils/indicators.ts:190-194 | the same soundness and ordering for the swing lows (≤ every value of the window) |
| Swings.SwingLowsComplete | src/lib/utils/indicators.ts:190-194 | every qualifying low is reported |
| Swings.SwingLowsExact | src/lib/utils/indicators.ts:188-197 | swing lows are sound, strictly increasing and complete |
| Levels.Insert | src/lib/utils/indicators.ts:269 | inserting into a strictly ascending sequence keeps it strictly ascending and adds exactly the new value |
| Levels.SortedDistinct | src/lib/utils/indicators.ts:269 | `[...new Set(xs)].sort` is strictly ascending with exactly the values of xs |
| Levels.LastThree | src/lib/utils/indicators.ts:269-270 | `slice(-3)` holds at most three points, exactly those among the last three |
| Levels.LevelsOf | src/lib/utils/indicators.ts:269-270 | support and resistance are strictly ascending, at most three, and exactly the rounded values of the last three swing points |
| Levels.AscendingUnique | src/lib/utils/indicators.ts:269-270 | two strictly ascending sequences with the same elements are equal |
| Levels.LevelsCanonical | src/lib/utils/indicators.ts:269-270 | any strictly ascending sequence of exactly those rounded values is the computed level list |
| Analysis.StructureReason | src/lib/utils/indicators.ts:327-329 | the structure reason is bullish for an uptrend, bearish for a downtrend, neutral otherwise |
| Analysis.TrendReason | src/lib/utils/indicators.ts:331-332 | a bullish reason iff the close is above the SMA50, a bearish one iff below, none without an SMA50 |
| Analysis.RsiReason | src/lib/utils/indicators.ts:334-339 | one RSI reason per band: < 20, [20, 30), > 70, [30, 70]; none without an RSI |
| Analysis.VolumeReason | src/lib/utils/indicators.ts:341-344 | a neutral volume reason iff the volume spikes, marked with the day's direction |
| Analysis.BandReason | src/lib/utils/indicators.ts:346-352 | a deep break, else a near-lower reason, else a near-upper reason, in that priority |
| Analysis.RangeReason | src/lib/utils/indicators.ts:354-356 | a neutral reason iff the close is more than 15% under the high |
| Analysis.VerdictReason | src/lib/utils/indicators.ts:359-367 | the buy rationale iff bullish; the band-stall or the crossdown rationale iff bearish, chosen by the first sell rule |
| Analysis.PushStep | src/lib/utils/indicators.ts:325-367 | appending a step's part keeps the reasons in step order |
| Analysis.ClassifyStructure | src/lib/utils/indicators.ts:230-240 | uptrend iff higher high and higher low; downtrend iff lower high and lower low; converging iff lower high and higher low; expanding iff higher high and lower low |
| Analysis.ReadIndicators | src/lib/utils/indicators.ts:221-299 | the values read are exactly the snapshot of the series (swings, SMA50, RSI, the min(20, len)-day volume average, ATR, high, bands, MACD, SMA20); the ATR is non-negative |
| Analysis.Decide | src/lib/utils/indicators.ts:281-322 | ConsiderBuying iff a buy setup; ConsiderSelling iff no buy setup and a sell setup, so buy rules come first; verdictType is the verdict's tone |
| Analysis.ExplainReasons | src/lib/utils/indicators.ts:325-367 | the reasons are the seven steps' parts concatenated in order, every reason correctly toned and slots ascending |
| Analysis.RiskLevels | src/lib/utils/indicators.ts:369-372 | stop = price − 2·ATR and target = price + 3·ATR exactly when the ATR is truthy; upside = 300·ATR/price and downside = 200·ATR/price, so upside : downside = 3 : 2 |
| Analysis.ApplyRules | src/lib/utils/indicators.ts:227-376 | the analysis explains the snapshot: structure, verdict, reasons, levels, risk levels, and empty next actions |
| Analysis.AnalyzeStock | src/lib/utils/indicators.ts:220-377 | `analyzeStock` explains the snapshot of its bars |
| Analysis.AtMostSevenReasons | src/lib/utils/indicators.ts:325-367 | at most seven reasons, one per step |
| Analysis.RationaleLast | src/lib/utils/indicators.ts:327-367 | the first reason is the structure reason; the last is a verdict rationale exactly when the verdict is not Wait; buying ends with the buy rationale |
| Analysis.ShortHistoryWaits | src/lib/utils/indicators.ts:264-322 | with fewer than 20 bars there are no bands and no previous SMA20, so the verdict is Wait and neutral |
| Analysis.BuyNeedsOversoldNearLowerBand | src/lib/utils/indicators.ts:281-314 | a buy verdict implies RSI < 30 and a close at most 1% over a positive lower band |
| Signals.RsiSignal | src/lib/utils/indicators.ts:391-401 | one RSI signal iff the RSI is defined: bearish iff ≥ 70, bullish iff ≤ 30, neutral between |
| Signals.SmaSignal | src/lib/utils/indicators.ts:404-419 | one SMA signal iff all four SMAs are defined: golden cross, dead cross, above, or below, by the previous and current order |
| Signals.MacdSignal | src/lib/utils/indicators.ts:422-436 | one MACD signal iff both histograms are defined: cross up, cross down, positive, or negative |
| Signals.BandSignal | src/lib/utils/indicators.ts:439-449 | exactly one signal iff both bands exist and the close is ≥ upper or ≤ lower, else none; it is a bearish upper-band touch iff the close ≥ upper, else a bullish lower-band touch iff the close ≤ lower |
| Signals.VolumeSignal | src/lib/utils/indicators.ts:452-462 | a volume surge iff latest > 1.5 × average, bullish when the price rose |
| Signals.ReadSignalInputs | src/lib/utils/indicators.ts:387-454 | the readings are exactly those of the series, with the volume sum always divided by 20 |
| Signals.SignalsOrdered | src/lib/utils/indicators.ts:386-465 | signals appear in check order (RSI, SMA, MACD, bands, volume), at most five |
| Signals.DetectSignals | src/lib/utils/indicators.ts:386-465 | `detectSignals` returns the specified signals, in check order, at most five |
| Signals.CheckPresence | src/lib/utils/indicators.ts:393-455 | each check contributes exactly when its inputs are defined (RSI; all four SMAs; both histograms), the band check exactly when both bands exist and the close touches one, the volume check exactly on a surge |
| Signals.WarmUp | src/lib/utils/indicators.ts:386-449 | RSI signal iff ≥ 15 bars; SMA signal iff ≥ 51; MACD signal iff ≥ 35; a band signal needs ≥ 20 |
| Signals.SurgeDetected | src/lib/utils/indicators.ts:452-455 | the volume signal fires iff the latest volume exceeds 1.5 × (sum of the last ≤ 20 volumes) / 20 |
| Signals.RecentVolumesFlat | src/lib/utils/indicators.ts:453 | over a constant volume v, the recent volumes are min(20, len) copies summing to that count × v |
| Signals.ShortFlatVolumeSurges | src/lib/utils/indicators.ts:453-455 | with 1 to 13 bars of constant positive volume the divide-by-20 average is understated and a surge is always reported |
| Signals.FullFlatVolumeNoSurge | src/lib/utils/indicators.ts:453-455 | with 20 or more bars of constant volume no surge is reported |
| SplitAdjust.ForwardFactor | src/lib/utils/split-adjust.ts:19-20 | a ratio under 0.4 gives a split factor of at least 3 |
| SplitAdjust.Detect | src/lib/utils/split-adjust.ts:12-31 | keep iff a price is non-positive or the ratio is in [0.4, 2.5]; divide by round(close/open) ≥ 3 iff ratio < 0.4; multiply by round(open/close) ≥ 3 iff ratio > 2.5 |
| SplitAdjust.RescaleBefore | src/lib/utils/split-adjust.ts:21-38 | rescaling bars before i keeps the length and every date, and leaves bars from i on untouched |
| SplitAdjust.DivideBefore | src/lib/utils/split-adjust.ts:21-27 | the inner loop divides the OHLC of every bar before i by N and multiplies its volume by N, in place |
| SplitAdjust.MultiplyBefore | src/lib/utils/split-adjust.ts:32-38 | the inner loop multiplies the OHLC of every bar before i by N and sets its volume to round(volume / N), in place |
| SplitAdjust.CheckBoundary | src/lib/utils/split-adjust.ts:12-39 | one outer iteration rescales the bars before i by what the current close/open pair detects |
| SplitAdjust.AdjustForSplits | src/lib/utils/split-adjust.ts:7-43 | fewer than 2 bars: the same array; otherwise a fresh array holding `Adjusted` of the input, which is left unchanged |
| SplitAdjust.AfterStepsFrame | src/lib/utils/split-adjust.ts:11-13 | after the steps before k, bars from k − 1 on are still the originals, so detection reads original prices; dates never change |
| SplitAdjust.AdjustedShape | src/lib/utils/split-adjust.ts:8-9 | the result has the input's length and dates; under 2 bars it is the input |
| SplitAdjust.ExactSplitDetected | src/lib/utils/split-adjust.ts:16-20 | an exact N:1 split (N ≥ 3) is detected as a division by N |
| SplitAdjust.ExactMergeDetected | src/lib/utils/split-adjust.ts:29-31 | an exact 1:N reverse split (N ≥ 3) is detected as a multiplication by N |
| SplitAdjust.DetectAbove | src/lib/utils/split-adjust.ts:30-31 | a ratio above 2.5 is a multiplication by the rounded ratio |
| SplitAdjust.HalvingNotDetected | src/lib/utils/split-adjust.ts:16-31 | a 2:1 split and a 1:2 reverse split are not detected |
| SplitAdjust.QuietBetween | src/lib/utils/split-adjust.ts:14-31 | a ratio in [0.4, 2.5] changes nothing |
| SplitAdjust.DivideSettles | src/lib/utils/split-adjust.ts:19-27 | after dividing by the detected factor, the pair that triggered it no longer triggers |
| SplitAdjust.MultiplySettles | src/lib/utils/split-adjust.ts:30-38 | after multiplying by the detected factor, the pair that triggered it no longer triggers |
| SplitAdjust.RescaleSettles | src/lib/utils/split-adjust.ts:16-38 | rescaling by what a pair detects leaves that pair quiet |
| SplitAdjust.ScalingKeepsQuiet | src/lib/utils/split-adjust.ts:21-38 | rescaling two neighbours by the same factor keeps a quiet pair quiet |
| SplitAdjust.StepsSettle | src/lib/utils/split-adjust.ts:11-40 | after the steps before k, every adjacent pair before k is quiet |
| SplitAdjust.SettledSteps | src/lib/utils/split-adjust.ts:11-40 | on a series whose pairs are all quiet, every step changes nothing |
| SplitAdjust.AdjustedSettled | src/lib/utils/split-adjust.ts:11-42 | after one pass every adjacent pair is quiet |
| SplitAdjust.SettledFixed | src/lib/utils/split-adjust.ts:11-42 | a series with only quiet pairs is its own adjustment |
| SplitAdjust.Idempotent | src/lib/utils/split-adjust.ts:7-43 | adjusting twice is adjusting once |

## Left out

- IEEE-754 doubles, `NaN` and `Infinity`: prices are exact reals, so rounding error and the float fuzz that idempotence would face in JavaScript are not modelled.
- Analysis.VolumeSpike and Analysis.FarBelowHigh: a zero divisor is given the outcome the IEEE quotient would give (an infinite ratio is a spike for a positive volume; NaN compares false). No other NaN path is modelled.
- Analysis.AnalyzeStock: requires at least one bar, with positive prices and non-negative volume. An empty series throws a TypeError in the source (`sma50` is `undefined`, so `aboveSma50` is false and src/lib/utils/indicators.ts:332 calls `toFixed` on `undefined`); a zero price makes the upside and downside percentages divide by zero.
- Signals.DetectSignals: requires at least one bar. An empty series throws a TypeError in the source: `latestRsi` is `undefined`, passes the `!== null` test and reaches `toFixed` at src/lib/utils/indicators.ts:399.
- `Math.sqrt` is a parameter `sqrt`. Only `BandsSymmetric`'s last clause assumes it is a square root (`IsSqrt`).
- Reading index −1 of a JavaScript array gives `undefined`. The model reads it as None, or as false in a comparison. This matters only on a single bar, where the latest SMA20, histogram and bands are already None.
- Reason and signal texts, and the `toFixed` number formatting inside them, are not modelled. Each reason or signal is a kind (with the structure, or the day's direction, where the text depends on it) and a tone.
- The `prevAvgGain` block of `rsi` (src/lib/utils/indicators.ts:62-67) computes a value that is never used. It is left out.
- Indicators.Rsi: the code averages the last `period` gains and losses plainly at every index. The comment at src/lib/utils/indicators.ts:68 says "simplified Wilder smoothing", yet the code takes a plain trailing mean; the model follows the code.
- Analysis.AnalyzeStock: the result type (src/lib/utils/indicators.ts:206-218) has no score, win rate or expected value, though `StockAnalysisPanel.tsx` reads such fields; none is modelled. `nextActions` is always empty, and `Explains` states that.
- SplitAdjust.Detect: the thresholds 0.4 and 2.5 (src/lib/utils/split-adjust.ts, lines 19 and 30) cannot detect a 2:1 split or a 1:2 reverse split, and every detected factor is at least 3; `Detect`'s contract and `HalvingNotDetected` prove it.
- Signals.ReadSignalInputs: `detectSignals` divides the recent volume sum by 20 (src/lib/utils/indicators.ts:453), where `analyzeStock` divides by min(20, len) (src/lib/utils/indicators.ts:252). The model follows each as written; `ShortFlatVolumeSurges` and `FullFlatVolumeNoSurge` show the consequence.
- SplitAdjust.AdjustForSplits: the source's spread copy makes new objects and then updates their fields with `/=` and `*=`. The model copies the array and replaces each element with a rescaled record. The caller's bars are never written either way.
- The UI components, hooks, API routes, storage, clocks and the network are not part of this model.
