/** The ARIMA(p, d, q) forecaster of models/arima.rs: d-fold differencing, a per-lag least-squares
    AR estimate, fixed MA coefficients, and an autoregressive forecast on the differenced scale. */
module Arima {
  import opened Telemetry
  import opened Numeric
  import opened Series
  import opened Forecasting

  // ---------------------------------------------------------------- differencing and integration

  /** `d` passes of first differences. */
  function DiffN(x: seq<real>, d: nat): seq<real>
    decreases d
  {
    if d == 0 then x else DiffN(Diff(x), d - 1)
  }

  /** Each pass shortens the series by one, down to empty. */
  lemma {:induction false} DiffNLength(x: seq<real>, d: nat)
    ensures |DiffN(x, d)| == if |x| >= d then |x| - d else 0
    decreases d
  {
    if d > 0 {
      DiffNLength(Diff(x), d - 1);
    }
  }

  /** One integration pass: `start` followed by the running sums of `x` from `start`. */
  function IntegrateOnce(x: seq<real>, start: real): (r: seq<real>)
    ensures |r| == |x| + 1 && r[0] == start
    ensures forall k :: 0 <= k < |x| ==> r[k + 1] == r[k] + x[k]
  {
    var r := seq(|x| + 1, k requires 0 <= k <= |x| => start + Sum(x[..k]));
    assert forall k :: 0 <= k < |x| ==> r[k + 1] == r[k] + x[k] by {
      forall k | 0 <= k < |x| {
        SumNext(x, k);
      }
    }
    r
  }

  /** `passes` integration passes, each starting from `start`. */
  function IntegrateN(x: seq<real>, passes: nat, start: real): (r: seq<real>)
    ensures |r| == |x| + passes
  {
    if passes == 0 then x else IntegrateOnce(IntegrateN(x, passes - 1, start), start)
  }

  /** Differencing undoes one integration pass, whatever the start value. */
  lemma DiffOfIntegrateOnce(x: seq<real>, start: real)
    ensures Diff(IntegrateOnce(x, start)) == x
  {
    var y := IntegrateOnce(x, start);
    if |x| > 0 {
      assert forall k :: 0 <= k < |x| ==> Diff(y)[k] == x[k];
    }
  }

  /** Differencing `d` times undoes integrating `d` times. */
  lemma {:induction false} DiffNUndoesIntegrateN(x: seq<real>, d: nat, start: real)
    ensures DiffN(IntegrateN(x, d, start), d) == x
    decreases d
  {
    if d > 0 {
      var inner := IntegrateN(x, d - 1, start);
      DiffNUndoesIntegrateN(x, d - 1, start);
      RoundTripStep(inner, x, d, start);
    }
  }

  /** One more integration pass and one more differencing pass cancel. */
  lemma RoundTripStep(inner: seq<real>, x: seq<real>, d: nat, start: real)
    requires d > 0 && inner == IntegrateN(x, d - 1, start) && DiffN(inner, d - 1) == x
    ensures DiffN(IntegrateN(x, d, start), d) == x
  {
    var outer := IntegrateOnce(inner, start);
    assert IntegrateN(x, d, start) == outer;
    DiffOfIntegrateOnce(inner, start);
    DiffNPeel(outer, d - 1);
  }

  lemma DiffNPeel(y: seq<real>, n: nat)
    ensures DiffN(y, n + 1) == DiffN(Diff(y), n)
  {
  }

  // ---------------------------------------------------------------- AR and MA estimates

  /** Sum of `x[j] * x[j - lag]` over `lag <= j < hi`. */
  function LagSum(x: seq<real>, lag: nat, hi: nat): real
    requires lag <= hi <= |x|
    decreases hi - lag
  {
    if hi == lag then 0.0 else LagSum(x, lag, hi - 1) + x[hi - 1] * x[hi - 1 - lag]
  }

  /** Sum of `x[j - lag] * x[j - lag]` over `lag <= j < hi`. */
  function LagSqSum(x: seq<real>, lag: nat, hi: nat): (r: real)
    requires lag <= hi <= |x|
    ensures r >= 0.0
    decreases hi - lag
  {
    if hi == lag then 0.0 else LagSqSum(x, lag, hi - 1) + Square(x[hi - 1 - lag])
  }

  /** The least-squares coefficient of `x` on itself shifted by `lag`, or 0 when the lagged
      values are all zero. */
  function ArCoeff(x: seq<real>, lag: nat): real
    requires lag <= |x|
  {
    var den := LagSqSum(x, lag, |x|);
    if den != 0.0 then LagSum(x, lag, |x|) / den else 0.0
  }

  /** The coefficient solves the one-lag normal equation `a * sum x[j-lag]^2 == sum x[j] x[j-lag]`,
      and it is 0 when the lagged values are all zero. */
  lemma ArCoeffNormalEquation(x: seq<real>, lag: nat)
    requires lag <= |x|
    ensures ArCoeff(x, lag) * LagSqSum(x, lag, |x|) == LagSum(x, lag, |x|)
            || (LagSqSum(x, lag, |x|) == 0.0 && ArCoeff(x, lag) == 0.0)
  {
  }

  /** On a constant series with a non-zero level every lag coefficient is exactly 1. */
  lemma ArCoeffOfConstant(x: seq<real>, lag: nat, c: real)
    requires lag < |x| && c != 0.0
    requires forall k :: 0 <= k < |x| ==> x[k] == c
    ensures ArCoeff(x, lag) == 1.0
  {
    LagSumsOfConstant(x, lag, |x|, c);
    var den := LagSqSum(x, lag, |x|);
    assert den == LagSqSum(x, lag, |x| - 1) + Square(x[|x| - 1 - lag]);
    assert den > 0.0;
    assert LagSum(x, lag, |x|) == den;
    BoundOverCount(1.0, den, den);
    BoundUnderCount(den, 1.0, den);
  }

  lemma {:induction false} LagSumsOfConstant(x: seq<real>, lag: nat, hi: nat, c: real)
    requires lag <= hi <= |x|
    requires forall k :: 0 <= k < |x| ==> x[k] == c
    ensures LagSum(x, lag, hi) == LagSqSum(x, lag, hi)
  {
    if hi > lag {
      LagSumsOfConstant(x, lag, hi - 1, c);
      assert x[hi - 1] * x[hi - 1 - lag] == Square(x[hi - 1 - lag]);
    }
  }

  /** Both lag sums of `data`, accumulated as the nested loop of `estimate_ar_coeffs` does. */
  method LagSums(data: seq<real>, lag: nat) returns (sumXy: real, sumX2: real)
    requires lag <= |data|
    ensures sumXy == LagSum(data, lag, |data|) && sumX2 == LagSqSum(data, lag, |data|)
  {
    sumXy, sumX2 := 0.0, 0.0;
    for j := lag to |data|
      invariant sumXy == LagSum(data, lag, j) && sumX2 == LagSqSum(data, lag, j)
    {
      sumXy := sumXy + data[j] * data[j - lag];
      sumX2 := sumX2 + Square(data[j - lag]);
    }
  }

  /** The `i`-th MA coefficient for order `q`: `0.1 * (i + 1) / q`. */
  function MaCoeff(i: nat, q: nat): real
    requires q > 0
  {
    0.1 * (i + 1) as real / q as real
  }

  /** Every MA coefficient lies in (0, 0.1] and the last one is exactly 0.1. */
  lemma MaCoeffRange(i: nat, q: nat)
    requires i < q
    ensures 0.0 < MaCoeff(i, q) <= 0.1
    ensures i == q - 1 ==> MaCoeff(i, q) == 0.1
  {
    var num := 0.1 * (i + 1) as real;
    assert num <= q as real * 0.1;
    BoundUnderCount(num, 0.1, q as real);
    if i == q - 1 {
      BoundOverCount(0.1, num, q as real);
    }
  }

  // ---------------------------------------------------------------- prediction

  /** `sum_{i < k, i < |h|} coeffs[i] * h[|h| - 1 - i]`. */
  function ArSum(coeffs: seq<real>, h: seq<real>, k: nat): real
    requires k <= |coeffs|
  {
    if k == 0 then 0.0
    else ArSum(coeffs, h, k - 1) + (if k - 1 < |h| then coeffs[k - 1] * h[|h| - k] else 0.0)
  }

  /** The one-step autoregressive prediction from history `h`. */
  function Predict(coeffs: seq<real>, h: seq<real>): real
  {
    ArSum(coeffs, h, |coeffs|)
  }

  /** Zero coefficients (in particular before fitting, and for p = 0) predict zero. */
  lemma {:induction false} PredictZeroCoeffs(coeffs: seq<real>, h: seq<real>, k: nat)
    requires k <= |coeffs| && forall i :: 0 <= i < |coeffs| ==> coeffs[i] == 0.0
    ensures ArSum(coeffs, h, k) == 0.0
  {
    if k > 0 {
      PredictZeroCoeffs(coeffs, h, k - 1);
    }
  }

  /** With one lag the prediction is the coefficient times the latest value. */
  lemma PredictAr1(a: real, h: seq<real>)
    requires |h| > 0
    ensures Predict([a], h) == a * h[|h| - 1]
  {
    assert ArSum([a], h, 1) == ArSum([a], h, 0) + a * h[|h| - 1];
  }

  // ---------------------------------------------------------------- the model

  class ARIMA {
    const p: nat
    const d: nat
    const q: nat
    var arCoeffs: seq<real>
    var maCoeffs: seq<real>
    var fitted: bool
    var differencedData: seq<real>

    /** One coefficient per order. */
    ghost predicate Valid()
      reads this
    {
      |arCoeffs| == p && |maCoeffs| == q
    }

    /** `ARIMA::new`: never fails; all coefficients zero, nothing fitted. */
    constructor (p: nat, d: nat, q: nat)
      ensures this.p == p && this.d == d && this.q == q
      ensures Valid() && !fitted && differencedData == []
      ensures forall i :: 0 <= i < p ==> arCoeffs[i] == 0.0
      ensures forall i :: 0 <= i < q ==> maCoeffs[i] == 0.0
    {
      this.p, this.d, this.q := p, d, q;
      arCoeffs := seq(p, _ => 0.0);
      maCoeffs := seq(q, _ => 0.0);
      fitted := false;
      differencedData := [];
    }

    /** `difference`: `d` passes of first differences. */
    method Difference(data: seq<real>) returns (result: seq<real>)
      ensures result == DiffN(data, d)
      ensures |result| == if |data| >= d then |data| - d else 0
      ensures d == 1 ==> forall i :: 0 <= i < |result| ==> result[i] == data[i + 1] - data[i]
    {
      result := data;
      for pass := 0 to d
        invariant DiffN(result, d - pass) == DiffN(data, d)
      {
        DiffNPeel(result, d - pass - 1);
        result := Diff(result);
      }
      DiffNLength(data, d);
    }

    /** The first value of each integration pass: the last original value when `d == 1`, else 0. */
    function StartValue(original: seq<real>): real
      requires d == 1 ==> |original| > 0
    {
      if d == 1 then original[|original| - 1] else 0.0
    }

    /** `integrate`: `d` passes of running sums; differencing the result `d` times gives back the input. */
    method Integrate(differenced: seq<real>, original: seq<real>) returns (result: seq<real>)
      requires d == 1 ==> |original| > 0
      ensures result == IntegrateN(differenced, d, StartValue(original))
      ensures |result| == |differenced| + d
      ensures DiffN(result, d) == differenced
    {
      result := differenced;
      for pass := 0 to d
        invariant result == IntegrateN(differenced, pass, StartValue(original))
      {
        var start := if d == 1 then original[|original| - 1] else 0.0;
        result := IntegratePass(result, start);
      }
      DiffNUndoesIntegrateN(differenced, d, StartValue(original));
    }

    /** `estimate_ar_coeffs`: refuses `|data| <= p`; otherwise coefficient `i` is the lag-`(i + 1)`
        least-squares estimate. Nothing but the AR coefficients changes. */
    method EstimateArCoeffs(data: seq<real>) returns (r: Result<()>)
      requires Valid()
      modifies this
      ensures Valid()
      ensures maCoeffs == old(maCoeffs) && fitted == old(fitted) && differencedData == old(differencedData)
      ensures |data| <= p ==> r.Err? && r.error.InsufficientData? && arCoeffs == old(arCoeffs)
      ensures |data| > p ==> r == Ok(()) && forall i :: 0 <= i < p ==> arCoeffs[i] == ArCoeff(data, i + 1)
    {
      if |data| <= p {
        return Err(InsufficientData("Not enough data for AR estimation"));
      }
      for i := 0 to p
        invariant |arCoeffs| == p
        invariant forall k :: 0 <= k < i ==> arCoeffs[k] == ArCoeff(data, k + 1)
        invariant maCoeffs == old(maCoeffs) && fitted == old(fitted) && differencedData == old(differencedData)
      {
        var lag := i + 1;
        var sumXy, sumX2 := LagSums(data, lag);
        arCoeffs := arCoeffs[i := if sumX2 != 0.0 then sumXy / sumX2 else 0.0];
      }
      return Ok(());
    }

    /** `estimate_ma_coeffs`: always succeeds; coefficient `i` becomes `0.1 * (i + 1) / q`. */
    method EstimateMaCoeffs(residuals: seq<real>) returns (r: Result<()>)
      requires Valid()
      modifies this
      ensures Valid() && r == Ok(())
      ensures arCoeffs == old(arCoeffs) && fitted == old(fitted) && differencedData == old(differencedData)
      ensures forall i :: 0 <= i < q ==> maCoeffs[i] == MaCoeff(i, q)
    {
      for i := 0 to q
        invariant |maCoeffs| == q
        invariant forall k :: 0 <= k < i ==> maCoeffs[k] == MaCoeff(k, q)
        invariant arCoeffs == old(arCoeffs) && fitted == old(fitted) && differencedData == old(differencedData)
      {
        maCoeffs := maCoeffs[i := 0.1 * (i + 1) as real / q as real];
      }
      return Ok(());
    }

    /** `fit`: refuses fewer than `p + d + q + 1` values and then changes nothing; otherwise records
        the differenced series and both coefficient sets and marks the model fitted. The AR
        estimate cannot fail here: at least `p + q + 1` differenced values remain. */
    method Fit(ts: TimeSeries) returns (r: Result<()>)
      requires Valid()
      modifies this
      ensures Valid()
      ensures |ts.values| < p + d + q + 1 ==> r.Err? && r.error.InsufficientData? && unchanged(this)
      ensures |ts.values| >= p + d + q + 1 ==>
                r == Ok(()) && fitted && differencedData == DiffN(ts.values, d)
                && |differencedData| >= p + q + 1
                && (forall i :: 0 <= i < p ==> arCoeffs[i] == ArCoeff(differencedData, i + 1))
                && (forall i :: 0 <= i < q ==> maCoeffs[i] == MaCoeff(i, q))
    {
      if |ts.values| < p + d + q + 1 {
        return Err(InsufficientData("Insufficient data for ARIMA model"));
      }
      differencedData := Difference(ts.values);
      var ar := EstimateArCoeffs(differencedData);
      if ar.Err? {
        assert false;
        return ar;
      }
      var residuals := differencedData;
      var ma := EstimateMaCoeffs(residuals);
      fitted := true;
      return Ok(());
    }

    /** `forecast`: an error before fitting; otherwise `steps` predictions on the differenced scale,
        each the AR prediction from the differenced data extended by the predictions before it. */
    method Forecast(steps: nat) returns (r: Result<ForecastResult>)
      requires Valid()
      ensures r.Err? <==> !fitted
      ensures r.Err? ==> r.error.ModelError?
      ensures r.Ok? ==>
                WellShaped(r.value, steps) && r.value.lowerBound.None? && r.value.upperBound.None?
                && r.value.confidence == 0.75
                && forall k :: 0 <= k < steps ==>
                     r.value.predictions[k] == Predict(arCoeffs, differencedData + r.value.predictions[..k])
    {
      if !fitted {
        return Err(ModelError("Model must be fitted before forecasting"));
      }
      var predictions: seq<real> := [];
      var history := differencedData;
      for s := 0 to steps
        invariant |predictions| == s && history == differencedData + predictions
        invariant forall k :: 0 <= k < s ==> predictions[k] == Predict(arCoeffs, differencedData + predictions[..k])
      {
        var pred := NextPrediction(arCoeffs, history);
        assert (predictions + [pred])[..s] == predictions;
        assert forall k :: 0 <= k < s ==> (predictions + [pred])[..k] == predictions[..k];
        predictions := predictions + [pred];
        history := history + [pred];
      }
      return Ok(ForecastResult(predictions, None, None, 0.75));
    }

    /** `forecast_with_confidence`: the same predictions with a band of half-width z * 1.0,
        so every prediction lies strictly inside its band. */
    method ForecastWithConfidence(steps: nat, level: real) returns (r: Result<ForecastResult>)
      requires Valid()
      ensures r.Err? <==> !fitted
      ensures r.Err? ==> r.error.ModelError?
      ensures r.Ok? ==>
                WellShaped(r.value, steps) && r.value.confidence == level
                && r.value.lowerBound.Some? && r.value.upperBound.Some?
                && (forall k :: 0 <= k < steps ==>
                      r.value.predictions[k] == Predict(arCoeffs, differencedData + r.value.predictions[..k]))
                && (forall k :: 0 <= k < steps ==>
                      r.value.upperBound.value[k] - r.value.predictions[k] == ZScore(level)
                      && r.value.predictions[k] - r.value.lowerBound.value[k] == ZScore(level))
                && (forall k :: 0 <= k < steps ==>
                      r.value.lowerBound.value[k] < r.value.predictions[k] < r.value.upperBound.value[k])
    {
      var base := Forecast(steps);
      if base.Err? {
        return Err(base.error);
      }
      var stdDev := 1.0;
      var margin := ZScore(level) * stdDev;
      return Ok(WithBounds(base.value, margin, level));
    }
  }

  /** One integration pass with pushes, as the inner loop of `integrate` builds it. */
  method IntegratePass(x: seq<real>, start: real) returns (integrated: seq<real>)
    ensures integrated == IntegrateOnce(x, start)
  {
    integrated := [start];
    for k := 0 to |x|
      invariant |integrated| == k + 1
      invariant forall j :: 0 <= j <= k ==> integrated[j] == IntegrateOnce(x, start)[j]
    {
      integrated := integrated + [integrated[k] + x[k]];
    }
  }

  /** One AR prediction, accumulated over the coefficients as the inner loop of `forecast` does. */
  method NextPrediction(coeffs: seq<real>, history: seq<real>) returns (pred: real)
    ensures pred == Predict(coeffs, history)
  {
    pred := 0.0;
    for i := 0 to |coeffs|
      invariant pred == ArSum(coeffs, history, i)
    {
      if i < |history| {
        pred := pred + coeffs[i] * history[|history| - 1 - i];
      }
    }
  }

  /** With two lags the prediction weighs the latest value and the one before it. */
  lemma PredictAr2(a: real, b: real, h: seq<real>)
    requires |h| >= 2
    ensures Predict([a, b], h) == a * h[|h| - 1] + b * h[|h| - 2]
  {
    assert ArSum([a, b], h, 1) == ArSum([a, b], h, 0) + a * h[|h| - 1];
  }

  /** ARIMA(2, 1, 1) fitted on 1, 2, ..., 50: the differences are all 1, both AR coefficients are
      1, and the forecast, left on the differenced scale, runs 2, 3, 5, 8, 13. */
  method ArimaExample() returns (predictions: seq<real>)
    ensures predictions == [2.0, 3.0, 5.0, 8.0, 13.0]
  {
    var model := FittedOnCount();
    var f := model.Forecast(5);
    predictions := f.value.predictions;
    ForecastSteps(model.differencedData, predictions);
  }

  /** ARIMA(2, 1, 1) fitted on 1, 2, ..., 50. */
  method FittedOnCount() returns (model: ARIMA)
    ensures fresh(model) && model.Valid() && model.fitted && model.arCoeffs == [1.0, 1.0]
    ensures |model.differencedData| == 49 && model.differencedData[47] == 1.0 && model.differencedData[48] == 1.0
  {
    model := new ARIMA(2, 1, 1);
    var data := seq(50, i requires 0 <= i < 50 => (i + 1) as real);
    var _ := model.Fit(FromValues(data));
    var dd := model.differencedData;
    UnitSteps(data, dd);
    ArCoeffOfConstant(dd, 1, 1.0);
    ArCoeffOfConstant(dd, 2, 1.0);
  }

  /** The first differences of 1, 2, ..., n are all 1. */
  lemma UnitSteps(data: seq<real>, dd: seq<real>)
    requires |data| > 0 && (forall i :: 0 <= i < |data| ==> data[i] == (i + 1) as real)
    requires dd == DiffN(data, 1)
    ensures |dd| == |data| - 1 && forall k :: 0 <= k < |dd| ==> dd[k] == 1.0
  {
    assert dd == Diff(data);
  }

  /** The five predictions of the example, one step at a time. */
  lemma ForecastSteps(dd: seq<real>, predictions: seq<real>)
    requires |dd| == 49 && dd[47] == 1.0 && dd[48] == 1.0 && |predictions| == 5
    requires forall k :: 0 <= k < 5 ==> predictions[k] == Predict([1.0, 1.0], dd + predictions[..k])
    ensures predictions == [2.0, 3.0, 5.0, 8.0, 13.0]
  {
    ForecastStep(dd, predictions, 0);
    ForecastStep(dd, predictions, 1);
    ForecastStep(dd, predictions, 2);
    ForecastStep(dd, predictions, 3);
    ForecastStep(dd, predictions, 4);
  }

  /** Prediction `k` adds the two values before it: the last two differences, then predictions. */
  lemma ForecastStep(dd: seq<real>, predictions: seq<real>, k: nat)
    requires |dd| == 49 && k < |predictions| && predictions[k] == Predict([1.0, 1.0], dd + predictions[..k])
    ensures k == 0 ==> predictions[k] == dd[48] + dd[47]
    ensures k == 1 ==> predictions[k] == predictions[0] + dd[48]
    ensures k >= 2 ==> predictions[k] == predictions[k - 1] + predictions[k - 2]
  {
    var h := dd + predictions[..k];
    PredictAr2(1.0, 1.0, h);
    assert h[|h| - 1] == (if k == 0 then dd[48] else predictions[k - 1]);
    assert h[|h| - 2] == (if k == 0 then dd[47] else if k == 1 then dd[48] else predictions[k - 2]);
  }
}
