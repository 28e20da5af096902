/** Forecast results and the two simple forecasters of forecasting.rs. The `Forecaster` trait is
    the shared shape of their members: `Fit` (changes the model), `Forecast` and
    `ForecastWithConfidence` (read it only). */
module Forecasting {
  import opened Telemetry
  import opened Numeric
  import opened Series

  /** Point predictions, optional confidence bounds, and a confidence figure. */
  datatype ForecastResult = ForecastResult(
    predictions: seq<real>,
    lowerBound: Option<seq<real>>,
    upperBound: Option<seq<real>>,
    confidence: real)

  /** What every forecast promises: `steps` predictions, and bounds (when present) as long. */
  predicate WellShaped(f: ForecastResult, steps: nat)
  {
    |f.predictions| == steps
    && (f.lowerBound.Some? ==> |f.lowerBound.value| == steps)
    && (f.upperBound.Some? ==> |f.upperBound.value| == steps)
  }

  /** `vec![x; steps]`. */
  function Repeat(x: real, steps: nat): (r: seq<real>)
    ensures |r| == steps && forall i :: 0 <= i < steps ==> r[i] == x
  {
    seq(steps, _ => x)
  }

  /** The normal quantile used for the interval: 1.96 from a 95% level up, 1.645 below. */
  function ZScore(level: real): (z: real)
    ensures z == 1.96 || z == 1.645
    ensures level >= 0.95 <==> z == 1.96
  {
    if level >= 0.95 then 1.96 else 1.645
  }

  /** A point forecast with a symmetric band of half-width `margin` around each prediction. */
  function WithBounds(base: ForecastResult, margin: real, level: real): (r: ForecastResult)
    ensures r.predictions == base.predictions && r.confidence == level
    ensures r.lowerBound.Some? && r.upperBound.Some?
    ensures |r.lowerBound.value| == |base.predictions| && |r.upperBound.value| == |base.predictions|
    ensures forall i :: 0 <= i < |base.predictions| ==>
              base.predictions[i] - r.lowerBound.value[i] == margin
              && r.upperBound.value[i] - base.predictions[i] == margin
    ensures margin >= 0.0 ==> forall i :: 0 <= i < |base.predictions| ==>
              r.lowerBound.value[i] <= base.predictions[i] <= r.upperBound.value[i]
  {
    var p := base.predictions;
    var lower := seq(|p|, i requires 0 <= i < |p| => p[i] - margin);
    var upper := seq(|p|, i requires 0 <= i < |p| => p[i] + margin);
    ForecastResult(p, Some(lower), Some(upper), level)
  }

  // ---------------------------------------------------------------- exponential smoothing

  /** Simple exponential smoothing: the forecast is the smoothed level at the end of the series. */
  class ExponentialSmoothing {
    const alpha: real
    var lastValue: Option<real>
    var fitted: bool

    /** Alpha lies in (0, 1], and a level is recorded exactly when the model is fitted. */
    ghost predicate Valid()
      reads this
    {
      0.0 < alpha <= 1.0 && (fitted <==> lastValue.Some?)
    }

    constructor (alpha: real)
      requires 0.0 < alpha <= 1.0
      ensures this.alpha == alpha && lastValue == None && !fitted
      ensures Valid()
    {
      this.alpha := alpha;
      lastValue := None;
      fitted := false;
    }

    /** `fit`: refuses an empty series and then leaves the model as it was; otherwise records the
        smoothed level of the whole series. */
    method Fit(ts: TimeSeries) returns (r: Result<()>)
      requires Valid()
      modifies this
      ensures Valid()
      ensures |ts.values| == 0 ==>
                r.Err? && r.error.InsufficientData? && lastValue == old(lastValue) && fitted == old(fitted)
      ensures |ts.values| > 0 ==> r == Ok(()) && fitted && lastValue == Some(Smoothed(alpha, ts.values))
    {
      var v := ts.values;
      if |v| == 0 {
        return Err(InsufficientData("Cannot fit on empty time series"));
      }
      var smoothed := v[0];
      assert v[..1] == [v[0]];
      for i := 1 to |v|
        invariant smoothed == Smoothed(alpha, v[..i])
      {
        SmoothedStep(alpha, v, i);
        smoothed := Blend(alpha, v[i], smoothed);
      }
      assert v[..|v|] == v;
      lastValue := Some(smoothed);
      fitted := true;
      return Ok(());
    }

    /** `forecast`: an error before fitting; otherwise the level repeated `steps` times, no bounds. */
    function Forecast(steps: nat): (r: Result<ForecastResult>)
      reads this
      requires Valid()
      ensures r.Err? <==> !fitted
      ensures r.Err? ==> r.error.ModelError?
      ensures r.Ok? ==>
                WellShaped(r.value, steps) && r.value.lowerBound.None? && r.value.upperBound.None?
                && r.value.confidence == 0.7
                && forall i :: 0 <= i < steps ==> r.value.predictions[i] == lastValue.value
    {
      if !fitted then Err(ModelError("Model must be fitted before forecasting"))
      else Ok(ForecastResult(Repeat(lastValue.value, steps), None, None, 0.7))
    }

    /** `forecast_with_confidence`: the same predictions with a band of half-width
        `last * (1 - level) * 0.5`, which is a proper band when that product is non-negative. */
    function ForecastWithConfidence(steps: nat, level: real): (r: Result<ForecastResult>)
      reads this
      requires Valid()
      ensures r.Err? <==> !fitted
      ensures r.Err? ==> r.error.ModelError?
      ensures r.Ok? ==>
                WellShaped(r.value, steps) && r.value.confidence == level
                && r.value.lowerBound.Some? && r.value.upperBound.Some?
                && (forall i :: 0 <= i < steps ==> r.value.predictions[i] == lastValue.value)
                && (forall i :: 0 <= i < steps ==>
                      r.value.upperBound.value[i] - r.value.predictions[i] == lastValue.value * (1.0 - level) * 0.5
                      && r.value.predictions[i] - r.value.lowerBound.value[i] == lastValue.value * (1.0 - level) * 0.5)
                && (lastValue.value * (1.0 - level) >= 0.0 ==> forall i :: 0 <= i < steps ==>
                      r.value.lowerBound.value[i] <= r.value.predictions[i] <= r.value.upperBound.value[i])
    {
      var base := Forecast(steps);
      if base.Err? then Err(base.error)
      else Ok(WithBounds(base.value, lastValue.value * (1.0 - level) * 0.5, level))
    }
  }

  /** `ExponentialSmoothing::new`: alpha outside (0, 1] is refused. */
  method NewExponentialSmoothing(alpha: real) returns (r: Result<ExponentialSmoothing>)
    ensures r.Err? <==> alpha <= 0.0 || alpha > 1.0
    ensures r.Err? ==> r.error.InvalidParameter?
    ensures r.Ok? ==> fresh(r.value) && r.value.Valid() && r.value.alpha == alpha
                      && r.value.lastValue.None? && !r.value.fitted
  {
    if alpha <= 0.0 || alpha > 1.0 {
      return Err(InvalidParameter("Alpha must be between 0 and 1"));
    }
    var model := new ExponentialSmoothing(alpha);
    return Ok(model);
  }

  /** The level a fitted smoother forecasts is the last entry of the exponential moving average
      of the same series with the same alpha. */
  method FittedLevelIsLastEma(ts: TimeSeries, alpha: real) returns (level: real, ema: seq<real>)
    requires 0.0 < alpha <= 1.0 && |ts.values| > 0
    ensures |ema| == |ts.values| && level == ema[|ema| - 1] && level == Smoothed(alpha, ts.values)
  {
    var model := new ExponentialSmoothing(alpha);
    var _ := model.Fit(ts);
    level := model.lastValue.value;
    var r := ExponentialMovingAverage(ts, alpha);
    ema := r.value;
    assert ts.values[..|ts.values|] == ts.values;
  }

  // ---------------------------------------------------------------- moving average

  /** The forecast is the mean of the last `window` values seen by `fit`. */
  class MovingAverageForecaster {
    const window: nat
    var history: Option<seq<real>>

    /** The window is positive and a recorded history holds at least one window. */
    ghost predicate Valid()
      reads this
    {
      window > 0 && (history.Some? ==> |history.value| >= window)
    }

    constructor (window: nat)
      requires window > 0
      ensures this.window == window && history == None
      ensures Valid()
    {
      this.window := window;
      history := None;
    }

    /** `fit`: refuses a series shorter than the window, leaving the model as it was; otherwise
        keeps a copy of the values. */
    method Fit(ts: TimeSeries) returns (r: Result<()>)
      requires Valid()
      modifies this
      ensures Valid()
      ensures |ts.values| < window ==> r.Err? && r.error.InsufficientData? && history == old(history)
      ensures |ts.values| >= window ==> r == Ok(()) && history == Some(ts.values)
    {
      if |ts.values| < window {
        return Err(InsufficientData("Need at least " + NatToString(window) + " data points"));
      }
      history := Some(ts.values);
      return Ok(());
    }

    /** The last `window` values of the recorded history. */
    function LastWindow(): (w: seq<real>)
      reads this
      requires Valid() && history.Some?
      ensures |w| == window
      ensures w == history.value[|history.value| - window..]
    {
      history.value[|history.value| - window..]
    }

    /** `forecast`: an error before fitting; otherwise the mean of the last window, repeated, which
        lies between that window's least and largest values. */
    function Forecast(steps: nat): (r: Result<ForecastResult>)
      reads this
      requires Valid()
      ensures r.Err? <==> history.None?
      ensures r.Err? ==> r.error.ModelError?
      ensures r.Ok? ==>
                WellShaped(r.value, steps) && r.value.lowerBound.None? && r.value.upperBound.None?
                && r.value.confidence == 0.6
                && forall i :: 0 <= i < steps ==>
                     r.value.predictions[i] == Mean(LastWindow())
                     && MinOf(LastWindow()) <= r.value.predictions[i] <= MaxOf(LastWindow())
    {
      if history.None? then Err(ModelError("Model must be fitted before forecasting"))
      else
        var last := LastWindow();
        MeanBetweenMinMax(last);
        Ok(ForecastResult(Repeat(Sum(last) / window as real, steps), None, None, 0.6))
    }

    /** `forecast_with_confidence`: the same predictions with a band of half-width z * sd of the
        last window, which is never negative, so the band always holds the prediction. */
    function ForecastWithConfidence(steps: nat, level: real, sqrt: real -> real): (r: Result<ForecastResult>)
      reads this
      requires Valid() && SqrtLike(sqrt)
      ensures r.Err? <==> history.None?
      ensures r.Err? ==> r.error.ModelError?
      ensures r.Ok? ==>
                WellShaped(r.value, steps) && r.value.confidence == level
                && r.value.lowerBound.Some? && r.value.upperBound.Some?
                && (forall i :: 0 <= i < steps ==> r.value.predictions[i] == Mean(LastWindow()))
                && (forall i :: 0 <= i < steps ==>
                      r.value.upperBound.value[i] - r.value.predictions[i]
                        == ZScore(level) * sqrt(Variance(LastWindow()))
                      && r.value.predictions[i] - r.value.lowerBound.value[i]
                        == ZScore(level) * sqrt(Variance(LastWindow())))
                && (forall i :: 0 <= i < steps ==>
                      r.value.lowerBound.value[i] <= r.value.predictions[i] <= r.value.upperBound.value[i])
    {
      var base := Forecast(steps);
      if base.Err? then Err(base.error)
      else
        var last := LastWindow();
        var sd := sqrt(Variance(last));
        var margin := ZScore(level) * sd;
        ProductPositive(ZScore(level), sd);
        Ok(WithBounds(base.value, margin, level))
    }
  }

  /** `MovingAverageForecaster::new`: a zero window is refused. */
  method NewMovingAverageForecaster(window: nat) returns (r: Result<MovingAverageForecaster>)
    ensures r.Err? <==> window == 0
    ensures r.Err? ==> r.error.InvalidParameter?
    ensures r.Ok? ==> fresh(r.value) && r.value.Valid() && r.value.window == window && r.value.history.None?
  {
    if window == 0 {
      return Err(InvalidParameter("Window size must be greater than 0"));
    }
    var model := new MovingAverageForecaster(window);
    return Ok(model);
  }

  /** Fitting [1, 2, 3, 4, 5] with window 3 and forecasting two steps predicts 4 twice. */
  method MovingAverageExample() returns (predictions: seq<real>)
    ensures predictions == [4.0, 4.0]
  {
    var model := new MovingAverageForecaster(3);
    var ts := FromValues([1.0, 2.0, 3.0, 4.0, 5.0]);
    var _ := model.Fit(ts);
    var f := model.Forecast(2);
    predictions := f.value.predictions;
    assert model.LastWindow() == [3.0, 4.0, 5.0];
    assert Sum([3.0, 4.0, 5.0]) == 12.0 by {
      assert [3.0, 4.0, 5.0][..2] == [3.0, 4.0];
      assert [3.0, 4.0][..1] == [3.0];
      assert [3.0][..0] == [];
    }
  }

  /** Fitting [1, 2, 3, 4, 5] with alpha 0.5 and forecasting three steps repeats the final level
      1 -> 1.5 -> 2.25 -> 3.125 -> 4.0625. */
  method ExponentialSmoothingExample() returns (predictions: seq<real>)
    ensures predictions == [4.0625, 4.0625, 4.0625]
  {
    var model := new ExponentialSmoothing(0.5);
    var v := [1.0, 2.0, 3.0, 4.0, 5.0];
    var _ := model.Fit(FromValues(v));
    assert Smoothed(0.5, v[..1]) == 1.0 by { assert v[..1] == [1.0]; }
    SmoothedStep(0.5, v, 1);
    SmoothedStep(0.5, v, 2);
    SmoothedStep(0.5, v, 3);
    SmoothedStep(0.5, v, 4);
    assert v[..5] == v;
    var f := model.Forecast(3);
    predictions := f.value.predictions;
  }

  /** Fitting 1, 2, ..., 30 with alpha 0.5 and asking for five steps at the 95% level gives
      bounds strictly below and above every prediction: the level is at least 1, so the band's
      half-width `level * 0.05 * 0.5` is positive. */
  method ConfidenceIntervalExample() returns (f: ForecastResult)
    ensures WellShaped(f, 5) && f.lowerBound.Some? && f.upperBound.Some?
    ensures forall i :: 0 <= i < 5 ==> f.lowerBound.value[i] < f.predictions[i] < f.upperBound.value[i]
  {
    var values := seq(30, i => (i + 1) as real);
    var model := new ExponentialSmoothing(0.5);
    var _ := model.Fit(FromValues(values));
    SmoothedWithin(0.5, values, 1.0, 30.0);
    var r := model.ForecastWithConfidence(5, 0.95);
    f := r.value;
  }
}
