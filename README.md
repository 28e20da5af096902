# Telemetry time-series core, modelled in Dafny

This project models the analysis core of the `telemetry` Rust crate and proves properties of the model. The crate is a sequential, deterministic library over series of `f64` samples. The model covers:

- **Errors** (`Telemetry`, telemetry.dfy): the four-variant error type and its `Display` messages.
- **Time series** (`Series`, time_series.dfy): construction with optional timestamps, sliding-window means, the exponential moving average, first differences, percentage change, slicing, and summary statistics over a sorted copy.
- **Seasonal decomposition** (`Decomposition`, decomposition.dfy): the padded centred moving-average trend, detrending, per-phase seasonal averaging with normalisation and tiling, and the residual, in additive and multiplicative modes.
- **Forecasters** (`Forecasting`, forecasting.dfy, and `Arima`, arima.dfy):
  - exponential smoothing;
  - the moving-average forecaster;
  - ARIMA(p, d, q), with d-fold differencing and integration, per-lag least-squares AR coefficients, fixed MA coefficients, and a forecast on the differenced scale.
- **Feature extraction** (`Features`, features.dfy): lag vectors, rolling mean/std/min/max, the least-squares slope over sliding windows, and the rate of change.
- **Anomaly detection** (`AnomalyDetection`, anomaly.dfy): the z-score, interquartile-range and moving-average filters, and the ensemble. The ensemble merges the index sets of the first two with a sort and a dedup and averages their scores.

Shared pieces:

- `Numeric` (numeric.dfy): sums, means, variance, extremes and their bounds.
- `Sorting` (sorting.dfy): an in-place insertion sort on an array, and `SortedCopy`, the function that specifies it.

Modelling choices:

- `f64` is `real`. A NaN entry in a trend, detrended series or residual is `None` of an `Option<real>`.
- `sqrt` is a function parameter. The ghost predicate `SqrtLike` says only that it is non-negative on non-negative inputs and zero exactly at zero.
- An IQR score is `Finite(x)` or `Infinite`. `Infinite` models the `+inf` that `f64` division by a zero interquartile range produces.
- A zero standard deviation in the z-score filter makes every z-score NaN in the source, so nothing is reported. The model says the same thing: a sample is flagged only when the deviation is non-zero.
- `Result<T>` is a datatype `Ok(value) | Err(error)`.
- Fallible constructors (`new` returning `Result<Self>`) are module-level methods, for example `NewExponentialSmoothing`. They validate the parameter and then call the class constructor.
- `fit` changes a class's fields in place. `forecast` and `forecast_with_confidence` change nothing; they are functions for the two simpler forecasters and methods with loops for ARIMA.
- The three forecasters share the method names `Fit`, `Forecast` and `ForecastWithConfidence`.
- Loops in the source are loops in the model, each proved against a specification function. Examples: `CalculateTrend` against `TrendAt`, `CalculateSeasonal` against `SeasonalPattern`, `CalculateSlope` against `Slope`, and the detector scans against `Report`.
- For an even period, the trend window holds `2 * (period / 2) + 1` samples but is divided by `period`. This is modelled exactly as the code does it. `TrendOfConstant` shows the effect: a constant series `c` gets the trend `c * (period + 1) / period` for an even period, and `c` for an odd one.

## Model

| member | source | states |
|---|---|---|
| Telemetry.Display | telemetry/src/lib.rs:50-59 | the rendering of an error ends with its message and is strictly longer (a non-empty prefix comes first) |
| Telemetry.DisplayMarks | telemetry/src/lib.rs:53-56 | every rendering is longer than 8 characters, and characters 0, 2 and 8 of its prefix tell the four kinds apart (M/I, then s/v, then d/p) |
| Telemetry.DisplayInjective | telemetry/src/lib.rs:39-59 | two errors with the same rendering are the same error (same variant, same message) |
| Series.FromValues | telemetry/src/time_series.rs:20-27 | the series holds exactly the values, with no timestamps and no name |
| Series.WithTimestamps | telemetry/src/time_series.rs:29-40 | fails with InvalidData exactly when the lengths differ; otherwise the series holds exactly those values and those timestamps |
| Series.MovingAverage | telemetry/src/time_series.rs:59-80 | window 0 gives InvalidParameter, a window longer than the series gives InsufficientData, otherwise len − window + 1 means, entry i the mean of values[i..i+window] |
| Series.ExponentialMovingAverage | telemetry/src/time_series.rs:83-105 | alpha outside (0, 1] gives InvalidParameter, an empty series gives InsufficientData; otherwise len entries, r[0] = v[0], r[i] = α·v[i] + (1−α)·r[i−1], and r[i] is the smoothed level of the prefix up to i |
| Series.SmoothedStep | telemetry/src/time_series.rs:99-102 | the smoothed level of a prefix one longer is the blend of the new sample with the previous level |
| Series.SmoothedWithin | telemetry/src/time_series.rs:99-102 | for α in [0, 1] the smoothed level stays within any bounds that contain every sample |
| Series.SmoothedAlphaOne | telemetry/src/forecasting.rs:62-66 | with α = 1 the smoothed level is the last sample |
| Series.Diff | telemetry/src/time_series.rs:108-117 | empty for fewer than two samples, otherwise len − 1 entries with r[i] = v[i+1] − v[i] |
| Series.DiffTelescopes | telemetry/src/time_series.rs:108-117 | the first differences sum to last − first |
| Series.RelativeChange | telemetry/src/time_series.rs:127-133 | 0 for a zero base, otherwise the change relative to the base (r·base = next − base) |
| Series.PctChange | telemetry/src/time_series.rs:120-135 | the same length as `Diff`, each entry the relative change of consecutive samples |
| Series.Slice | telemetry/src/time_series.rs:138-153 | fails with InvalidParameter exactly when start ≥ end or end > len; otherwise values and (when present) timestamps are the [start, end) sub-sequences, still aligned, and the name is unchanged |
| Series.SliceOfSlice | telemetry/src/time_series.rs:138-153 | slicing a slice is the slice at the composed offsets |
| Series.StatisticsOf | telemetry/src/time_series.rs:173-214 | all zeros with count 0 on empty input; otherwise count, mean, population standard deviation, min and max of the values and the median of their sorted copy, with sd ≥ 0, min ≤ median ≤ max and min ≤ mean ≤ max |
| Series.SortedEnds | telemetry/src/time_series.rs:204-205 | the first and last elements of a sorted permutation are the minimum and maximum |
| Series.MedianWithin | telemetry/src/time_series.rs:192-196 | the median of an ascending sequence lies between its ends |
| Series.MovingAverageExample | telemetry/src/time_series.rs:222-226 | windows of 3 over 1..5 give [2, 3, 4] |
| Series.StatisticsExample | telemetry/src/time_series.rs:236-243 | 1..5 has count 5, mean 3, median 3, min 1 and max 5 |
| Series.OneToFive | telemetry/src/time_series.rs:236-243 | 1..5 averages to 3 and has median 3 |
| Sorting.SortBy | telemetry/src/time_series.rs:189-190 | sorts the array in place by the key: the result is ascending and a permutation of the old contents |
| Sorting.SortedCopy | telemetry/src/time_series.rs:189-190 | the sorted copy has the same length and multiset as the input and is ascending |
| Sorting.SortedUnique | telemetry/src/anomaly.rs:90-91 | two ascending permutations of the same values are equal, so every sort of a copy yields `SortedCopy` |
| Decomposition.NewDecomposer | telemetry/src/decomposition.rs:33-44 | fails with InvalidParameter exactly when period = 0, otherwise keeps mode and period |
| Decomposition.CalculateTrend | telemetry/src/decomposition.rs:74-95 | the trend has length len and entry i equals `TrendAt` (NaN padding at both ends, a window sum divided by period inside) |
| Decomposition.TrendDefinedExactly | telemetry/src/decomposition.rs:74-95 | the trend is defined exactly at period/2 ≤ i < len − period/2 |
| Decomposition.TrendOddPeriodIsMean | telemetry/src/decomposition.rs:84-87 | for an odd period a defined trend entry is the mean of values[i−h ..= i+h] |
| Decomposition.TrendOfConstant | telemetry/src/decomposition.rs:84-87 | on a constant series c a defined entry is (2h+1)·c/period: c for an odd period, c·(period+1)/period for an even one |
| Decomposition.Detrend | telemetry/src/decomposition.rs:98-120 | same length; an entry is defined exactly where the trend is (and, multiplicatively, non-zero), and then trend ⊕ detrended = value (v − t or v / t) |
| Decomposition.PhaseStep | telemetry/src/decomposition.rs:128-134 | adding one sample changes only its own phase's sum and count, and only if it is defined |
| Decomposition.PhaseEmpty | telemetry/src/decomposition.rs:136-140 | a phase with no defined samples has sum 0, so its average stays 0 |
| Decomposition.AdditivePatternSumsToZero | telemetry/src/decomposition.rs:143-147 | after additive normalisation the seasonal pattern sums to 0 |
| Decomposition.MultiplicativePatternMeanOne | telemetry/src/decomposition.rs:148-153 | after multiplicative normalisation with a non-zero mean the pattern averages to 1 |
| Decomposition.CalculateSeasonal | telemetry/src/decomposition.rs:123-163 | the seasonal series has length len, seasonal[i] = pattern[i mod period], and it repeats with the period |
| Decomposition.PhaseTotals | telemetry/src/decomposition.rs:125-134 | the per-phase accumulators hold the sum and count of the defined samples of each phase |
| Decomposition.Average | telemetry/src/decomposition.rs:136-140 | each phase total is divided by its count where the count is positive and left alone otherwise |
| Decomposition.NormalizeInPlace | telemetry/src/decomposition.rs:143-154 | the array becomes the normalised pattern of its old contents |
| Decomposition.Tile | telemetry/src/decomposition.rs:156-160 | n entries, entry i the pattern at i mod period, periodic |
| Decomposition.CalculateResidual | telemetry/src/decomposition.rs:166-189 | same length; defined exactly where the trend is (and, multiplicatively, trend and seasonal are non-zero), and then trend ⊕ seasonal ⊕ residual = value |
| Decomposition.Decompose | telemetry/src/decomposition.rs:47-71 | fails with InsufficientData exactly when len < 2·period; otherwise three aligned components of length len: the trend is `TrendAt`, the seasonal is the tiled pattern of the detrended series, the residual is `CalculateResidual` of the three, defined exactly where the trend is defined (and, multiplicatively, trend and seasonal are non-zero), and there the components recombine to the value |
| Decomposition.AdditiveReconstruction | telemetry/src/decomposition.rs:166-189 | additively, the residual is defined exactly where the trend is, and there trend + seasonal + residual = value |
| Forecasting.ZScore | telemetry/src/forecasting.rs:182 | z is 1.96 exactly when level ≥ 0.95, and 1.645 otherwise |
| Forecasting.WithBounds | telemetry/src/forecasting.rs:98-111 | keeps the predictions, sets confidence to the level, and puts both bounds at distance margin from each prediction, so a non-negative margin brackets the prediction |
| Forecasting.ExponentialSmoothing.constructor | telemetry/src/forecasting.rs:46-50 | a model with the given alpha, no level and not fitted |
| Forecasting.NewExponentialSmoothing | telemetry/src/forecasting.rs:39-51 | fails with InvalidParameter exactly when alpha ≤ 0 or alpha > 1, otherwise a fresh unfitted model with that alpha |
| Forecasting.ExponentialSmoothing.Fit | telemetry/src/forecasting.rs:55-71 | an empty series gives InsufficientData and leaves the state unchanged; otherwise the level becomes the smoothed fold of the values and the model is fitted |
| Forecasting.ExponentialSmoothing.Forecast | telemetry/src/forecasting.rs:73-89 | ModelError exactly when unfitted; otherwise `steps` copies of the level, confidence 0.7, no bounds |
| Forecasting.ExponentialSmoothing.ForecastWithConfidence | telemetry/src/forecasting.rs:91-112 | ModelError exactly when unfitted; otherwise the same predictions, confidence = level, bounds at ± last·(1−level)·0.5 from each prediction, where last is the fitted level, which bracket it whenever last·(1−level) ≥ 0 |
| Forecasting.FittedLevelIsLastEma | telemetry/src/forecasting.rs:62-66 | the fitted level equals the last entry of the exponential moving average with the same alpha |
| Forecasting.MovingAverageForecaster.constructor | telemetry/src/forecasting.rs:130-133 | a model with the given window and no history |
| Forecasting.NewMovingAverageForecaster | telemetry/src/forecasting.rs:123-134 | fails with InvalidParameter exactly when window = 0, otherwise a fresh model with no history |
| Forecasting.MovingAverageForecaster.Fit | telemetry/src/forecasting.rs:138-147 | fewer values than the window gives InsufficientData and leaves the history unchanged; otherwise the history is a copy of the values |
| Forecasting.MovingAverageForecaster.LastWindow | telemetry/src/forecasting.rs:156 | the last `window` values of the history |
| Forecasting.MovingAverageForecaster.Forecast | telemetry/src/forecasting.rs:149-167 | ModelError exactly before `fit`; otherwise `steps` copies of the mean of the last window, which lies between that window's min and max, confidence 0.6, no bounds |
| Forecasting.MovingAverageForecaster.ForecastWithConfidence | telemetry/src/forecasting.rs:169-199 | ModelError exactly before `fit`; otherwise the same predictions, confidence = level, margin z·sd of the last window on both sides, and lower ≤ prediction ≤ upper always |
| Forecasting.MovingAverageExample | telemetry/src/forecasting.rs:219-228 | window 3 over 1..5 forecasts [4, 4] for two steps |
| Forecasting.ExponentialSmoothingExample | telemetry/src/forecasting.rs:207-217 | alpha 0.5 over 1..5 forecasts three copies of 4.0625 |
| Forecasting.ConfidenceIntervalExample | telemetry/tests/integration_test.rs:98-119 | alpha 0.5 over 1..30 at level 0.95: five predictions, both bounds present, each prediction strictly inside its band |
| Arima.DiffNLength | telemetry/src/models/arima.rs:39-49 | d passes of differencing leave len − d samples when len ≥ d, none otherwise |
| Arima.IntegrateOnce | telemetry/src/models/arima.rs:62-66 | one pass prepends the start value and takes running sums, one longer than its input |
| Arima.IntegrateN | telemetry/src/models/arima.rs:52-72 | d passes lengthen the series by d |
| Arima.DiffOfIntegrateOnce | telemetry/src/models/arima.rs:52-72 | differencing undoes one integration pass, whatever the start value |
| Arima.DiffNUndoesIntegrateN | telemetry/src/models/arima.rs:39-72 | differencing d times undoes integrating d times |
| Arima.ArCoeffNormalEquation | telemetry/src/models/arima.rs:83-98 | each AR coefficient solves coeff·Σx[j−k]² = Σx[j]·x[j−k] (both sides 0 when the denominator is 0) |
| Arima.ArCoeffOfConstant | telemetry/src/models/arima.rs:83-98 | on a non-zero constant series every AR coefficient is 1 |
| Arima.LagSums | telemetry/src/models/arima.rs:85-91 | the inner loop accumulates exactly the lagged cross sum and the lagged square sum |
| Arima.MaCoeffRange | telemetry/src/models/arima.rs:104-110 | every MA coefficient lies in (0, 0.1] and the last is exactly 0.1 |
| Arima.PredictZeroCoeffs | telemetry/src/models/arima.rs:148-155 | all-zero coefficients (an unfitted model, or p = 0) predict 0 |
| Arima.PredictAr1 | telemetry/src/models/arima.rs:148-155 | one lag predicts coefficient × the latest value |
| Arima.PredictAr2 | telemetry/src/models/arima.rs:148-155 | two lags predict a·h[last] + b·h[last−1] |
| Arima.ARIMA.constructor | telemetry/src/models/arima.rs:28-36 | never fails: p zero AR and q zero MA coefficients, no differenced data, not fitted |
| Arima.ARIMA.Difference | telemetry/src/models/arima.rs:39-49 | d passes of first differences, of length len − d (or 0), with r[i] = x[i+1] − x[i] for d = 1 |
| Arima.ARIMA.Integrate | telemetry/src/models/arima.rs:52-72 | d passes from the start value (the last original sample for d = 1, else 0), of length len + d, and differencing it d times gives back its input |
| Arima.ARIMA.EstimateArCoeffs | telemetry/src/models/arima.rs:75-101 | at most p samples gives InsufficientData and leaves the coefficients alone; otherwise coefficient k−1 is the lag-k least-squares ratio, and nothing else changes |
| Arima.ARIMA.EstimateMaCoeffs | telemetry/src/models/arima.rs:104-110 | always succeeds and sets coefficient i to 0.1·(i+1)/q, nothing else changes |
| Arima.ARIMA.Fit | telemetry/src/models/arima.rs:114-135 | fewer than p+d+q+1 samples gives InsufficientData and changes nothing; otherwise the differenced data is d-fold differencing (at least p+q+1 long, so the AR error is unreachable), the coefficients are estimated and the model is fitted |
| Arima.ARIMA.Forecast | telemetry/src/models/arima.rs:137-168 | ModelError exactly when unfitted; otherwise `steps` predictions on the differenced scale, each the AR prediction from the differenced data extended by the predictions before it, confidence 0.75, no bounds |
| Arima.ARIMA.ForecastWithConfidence | telemetry/src/models/arima.rs:170-192 | ModelError exactly when unfitted; otherwise the same predictions, confidence = level, margin z·1.0, and lower < prediction < upper strictly |
| Arima.IntegratePass | telemetry/src/models/arima.rs:56-68 | the push loop computes one integration pass |
| Arima.NextPrediction | telemetry/src/models/arima.rs:148-155 | the coefficient loop computes the AR prediction |
| Arima.ArimaExample | telemetry/src/models/arima.rs:208-217 | ARIMA(2, 1, 1) fitted on 1..50 forecasts [2, 3, 5, 8, 13] for five steps |
| Features.CreateLagFeatures | telemetry/src/features.rs:10-35 | InvalidParameter exactly when the lags are empty or some lag ≥ len; otherwise one vector per lag, values[0 .. len − lag] |
| Features.LagExample | telemetry/src/features.rs:168-175 | lags 1 and 2 of 1..5 are [1, 2, 3, 4] and [1, 2, 3] |
| Features.RollingStatistics | telemetry/src/features.rs:38-82 | window 0 gives InvalidParameter, a window longer than the series gives InsufficientData; otherwise four sequences of length len − window + 1 holding the mean, sd, min and max of each window, with sd ≥ 0 and min ≤ mean ≤ max |
| Features.WindowStds | telemetry/src/features.rs:62-65 | one population sd per window |
| Features.WindowMins | telemetry/src/features.rs:67-69 | one minimum per window |
| Features.WindowMaxs | telemetry/src/features.rs:71-73 | one maximum per window |
| Features.RollingBounds | telemetry/src/features.rs:56-74 | each window's sd is non-negative and its mean lies between its min and max |
| Features.RollingMeansAreMovingAverage | telemetry/src/features.rs:38-82 | rolling means and `moving_average` fail together and agree when they succeed |
| Features.RollingExample | telemetry/src/features.rs:178-184 | window 3 over 1..5 gives three means, the first 2 |
| Features.CalculateSlope | telemetry/src/features.rs:104-123 | the accumulator loop computes `Slope`: 0 for a zero denominator, numerator/denominator otherwise |
| Features.SlopeDenominatorPositive | telemetry/src/features.rs:115-118 | with at least two samples the denominator is positive, so the 0 branch is never taken |
| Features.CenteredIndexSumClosed | telemetry/src/features.rs:106-114 | Σ (i − x̄) over k indices is k(k−1)/2 − k·x̄ |
| Features.CenteredIndicesCancel | telemetry/src/features.rs:106-114 | the centred indices sum to 0 |
| Features.SlopeOfConstant | telemetry/src/features.rs:104-123 | a constant window has slope 0 |
| Features.SlopeOfLinear | telemetry/src/features.rs:104-123 | a window a + b·i with at least two samples has slope b |
| Features.TrendFeatures | telemetry/src/features.rs:85-101 | InvalidParameter exactly when window < 2; otherwise len − window + 1 slopes, one per window |
| Features.RateOfChange | telemetry/src/features.rs:126-151 | periods 0 gives InvalidParameter, periods ≥ len gives InsufficientData; otherwise len − periods relative changes over `periods` steps (0 for a zero base), and with periods = 1 exactly `pct_change` |
| AnomalyDetection.Default | telemetry/src/anomaly.rs:37-44 | z threshold 3.0 and IQR multiplier 1.5 |
| AnomalyDetection.Report | telemetry/src/anomaly.rs:101-118 | the anomalies pushed by a scan have strictly increasing indices inside the scanned range |
| AnomalyDetection.ReportEntries | telemetry/src/anomaly.rs:101-118 | each reported anomaly carries the sample at its index, the scan's type and the score of its verdict |
| AnomalyDetection.ReportComplete | telemetry/src/anomaly.rs:101-118 | an index in the scanned range is reported exactly when its verdict is a score |
| AnomalyDetection.DetectZScore | telemetry/src/anomaly.rs:56-80 | fewer than 3 samples gives InsufficientData; otherwise the z-score report |
| AnomalyDetection.ZScoreScan | telemetry/src/anomaly.rs:66-77 | the loop produces the report of the per-sample z-score verdicts |
| AnomalyDetection.ZeroSpreadMeansConstant | telemetry/src/anomaly.rs:63-67 | a zero sd means every sample is the mean, so no z-score is finite and nothing is flagged |
| AnomalyDetection.ZScoreFlagsExactly | telemetry/src/anomaly.rs:56-80 | an index is reported exactly when sd > 0 and \|v − mean\|/sd > threshold; each anomaly is a Point with the sample and its z-score, above the threshold |
| AnomalyDetection.ZScoreTestFlagsNothing | telemetry/src/anomaly.rs:201-210 | for the unit test's data 1, 2, 3, 2, 1, 100, 2, 1 the mean is 14 and the population variance 1057; with a square root that squares back, no sample is reported, so the test's `!anomalies.is_empty()` does not hold |
| AnomalyDetection.PositiveQuotient | telemetry/src/anomaly.rs:105-109 | a positive distance over a spread is +inf exactly for a zero spread, otherwise the positive quotient |
| AnomalyDetection.QuartilesOrdered | telemetry/src/anomaly.rs:93-96 | q1 = sorted[n/4] ≤ q3 = sorted[3n/4], both samples of the series |
| AnomalyDetection.DetectIqr | telemetry/src/anomaly.rs:83-121 | fewer than 4 samples gives InsufficientData; otherwise the IQR report from the sorted copy's quartiles |
| AnomalyDetection.IqrScan | telemetry/src/anomaly.rs:98-118 | the loop produces the report of the per-sample fence verdicts |
| AnomalyDetection.IqrFlagsExactly | telemetry/src/anomaly.rs:83-121 | an index is reported exactly when its sample is outside [q1 − k·iqr, q3 + k·iqr]; each anomaly is a Point with its sample, and its score is +inf exactly when iqr = 0, else the positive distance beyond the fence divided by iqr |
| AnomalyDetection.IqrInnerRangeNeverFlagged | telemetry/src/anomaly.rs:98-104 | with a non-negative multiplier a sample between the quartiles is never reported |
| AnomalyDetection.FencesEnclose | telemetry/src/anomaly.rs:98-99 | with a non-negative multiplier the fences lie outside the quartiles |
| AnomalyDetection.IqrExample | telemetry/src/anomaly.rs:212-220 | for 1, 2, 3, 2, 1, 100, 2, 1 the quartiles are 1 and 3, and index 5 (the 100) is reported |
| AnomalyDetection.RelativeDeviation | telemetry/src/anomaly.rs:136-137 | non-negative, and zero exactly when the sample equals the mean |
| AnomalyDetection.DetectMovingAverage | telemetry/src/anomaly.rs:124-150 | propagates `moving_average`'s errors (window 0, window > len); otherwise the centred moving-average report |
| AnomalyDetection.MovingAverageScan | telemetry/src/anomaly.rs:129-147 | the loop, offset by window/2, produces the report of the per-window verdicts; the early break is never taken |
| AnomalyDetection.MovingAverageFlagsExactly | telemetry/src/anomaly.rs:124-150 | an index j in the centred range is reported exactly when its relative deviation from the window mean centred on j exceeds 0.5 |
| AnomalyDetection.MovingAverageScores | telemetry/src/anomaly.rs:129-146 | each anomaly lies in the centred range (so index < len), is Contextual, carries its sample, and scores its relative deviation, above 0.5 |
| AnomalyDetection.CentredMeansAreMovingAverage | telemetry/src/anomaly.rs:129-137 | the moving average at i − window/2 is the mean of the window centred on i |
| AnomalyDetection.ScoreOfReported | telemetry/src/anomaly.rs:170-180 | the score lookup is 0 for an unreported index and the anomaly's score for a reported one |
| AnomalyDetection.MeanScore | telemetry/src/anomaly.rs:183 | the mean of two scores is +inf when either is, otherwise half their sum |
| AnomalyDetection.Dedup | telemetry/src/anomaly.rs:165 | on an ascending array, the kept prefix is strictly increasing and has the same members as the whole array |
| AnomalyDetection.SortedPositions | telemetry/src/anomaly.rs:158-165 | chain, sort and dedup give the strictly increasing list of the union of both index sets |
| AnomalyDetection.EnsembleScores | telemetry/src/anomaly.rs:167-191 | one Point anomaly per kept index, with its sample and the mean of the two looked-up scores |
| AnomalyDetection.DetectEnsemble | telemetry/src/anomaly.rs:153-194 | fails with InsufficientData below 4 samples (both detectors' errors combined); otherwise strictly increasing indices forming exactly the union of the z-score and IQR index sets, each a Point with its sample and the mean of the two method scores (0 for a method that did not flag the index) |

## Left out

- Floating point: every `f64` is a `real`, so rounding, overflow, infinities other than the zero-spread IQR score, and NaN inputs are not modelled. NaN appears only as the `None` padding and guards.
- `partial_cmp().unwrap()` panics on NaN inputs; real inputs have no NaN, so the sorts and min/max never panic in the model.
- `sqrt` (statistics, rolling sd, moving-average forecaster, z-score) is a parameter known only to be non-negative and zero exactly at zero. Nothing is proved that needs its actual value.
- The `max(1e-10)` floor in the relative deviation is taken as written, with equality of reals. No tolerance reasoning is done.
- Timestamps are `int`; the `chrono` types, the `serde` derives and `Debug`/`Clone` are not modelled. The name label is carried along unchanged.
- `TimeSeries::with_name`, `len`, `is_empty` and `statistics` are trivial accessors. `statistics` is `StatisticsOf` applied to the values.
- `TimeSeries::new` is `Series.FromValues`. `AnomalyDetector::new` is the datatype constructor of `AnomalyDetector`.
- The `Forecaster` trait is not modelled. The three forecaster classes repeat its three members under the same names.
- `Decomposition.Decompose`: requires period > 0. Every `Decomposer` comes from `NewDecomposer`, which refuses period 0; with period 0 the source would divide by zero and panic on `% 0`.
- Arima.ARIMA.Integrate: requires a non-empty original series when d = 1. The source panics on `original_data.last().unwrap()` there, and nothing calls `integrate`.
- Decomposition.CalculateTrend: requires len ≥ 2·period, which its only caller, `decompose`, checks first. With fewer samples, `len - half` in the source could underflow.
- The unused `AnomalyType::Collective` variant exists only as a constructor. `DecompositionResult`'s `Debug`/`Clone` are not modelled.
- `Features.TrendFeatures`: requires window ≤ len when window ≥ 2. For a larger window, `ts.len() - window` underflows `usize` in the source (a panic in debug builds).
- `AnomalyDetection.Dedup`: `Vec::dedup` truncates the vector. The model returns the length of the kept prefix of the array instead.
- ARIMA forecasts are not integrated back to the original scale, exactly as in the source. `integrate` is modelled and proved, but nothing calls it.
- ARIMA's MA coefficients ignore the residuals passed to them, as in the source.
- The z-score unit test in anomaly.rs (lines 201-210) expects index 5 to be reported, but on its data the 100 lies only about 2.65 standard deviations from the mean. `AnomalyDetection.ZScoreTestFlagsNothing` proves that nothing is reported, for any `sqrt` with sqrt(x)² = x at the variance. In general, with 8 samples and the population sd, no |z| can exceed √7 < 3; that bound is not proved.
- The end-to-end and anomaly-accuracy tests in tests/integration_test.rs (lines 8-36 and 81-95) need a concrete `sqrt` and are not modelled. The decomposition tests check only lengths, which `Decompose`'s contract covers.
- The benches, examples and other files of the repository are not part of this model.
