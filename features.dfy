/** The feature extractors of features.rs: lag vectors, rolling window statistics, least-squares
    trend slopes and rates of change. */
module Features {
  import opened Telemetry
  import opened Numeric
  import opened Series

  // ---------------------------------------------------------------- lag features

  /** `create_lag_features`: refuses an empty lag list or a lag that does not leave one value;
      otherwise one vector per lag, the series without its last `lag` values. */
  method CreateLagFeatures(ts: TimeSeries, lags: seq<nat>) returns (r: Result<seq<seq<real>>>)
    ensures r.Err? <==> |lags| == 0 || exists k :: 0 <= k < |lags| && lags[k] >= |ts.values|
    ensures r.Err? ==> r.error.InvalidParameter?
    ensures r.Ok? ==> |r.value| == |lags|
                      && forall k :: 0 <= k < |lags| ==> r.value[k] == ts.values[..|ts.values| - lags[k]]
  {
    var v, n := ts.values, |ts.values|;
    if |lags| == 0 {
      return Err(InvalidParameter("Must specify at least one lag"));
    }
    var maxLag := lags[0];
    for k := 1 to |lags|
      invariant forall j :: 0 <= j < k ==> lags[j] <= maxLag
      invariant exists j :: 0 <= j < k && lags[j] == maxLag
    {
      if lags[k] > maxLag {
        maxLag := lags[k];
      }
    }
    if maxLag >= n {
      return Err(InvalidParameter("Lag is too large for the time series"));
    }
    var features: seq<seq<real>> := [];
    for k := 0 to |lags|
      invariant |features| == k
      invariant forall j :: 0 <= j < k ==> features[j] == v[..n - lags[j]]
    {
      var lag := lags[k];
      var lagFeature: seq<real> := [];
      for i := lag to n
        invariant |lagFeature| == i - lag
        invariant forall j :: 0 <= j < i - lag ==> lagFeature[j] == v[j]
      {
        lagFeature := lagFeature + [v[i - lag]];
      }
      assert lagFeature == v[..n - lag];
      features := features + [lagFeature];
    }
    return Ok(features);
  }

  // ---------------------------------------------------------------- rolling statistics

  /** One entry per window position: mean, standard deviation, least and largest value. */
  datatype RollingStats = RollingStats(means: seq<real>, stds: seq<real>, mins: seq<real>, maxs: seq<real>)

  /** `rolling_statistics`: the errors of `moving_average`; otherwise the four statistics of every
      window, the means being exactly the moving average. */
  method RollingStatistics(ts: TimeSeries, window: nat, sqrt: real -> real) returns (r: Result<RollingStats>)
    requires SqrtLike(sqrt)
    ensures window == 0 ==> r.Err? && r.error.InvalidParameter?
    ensures window > |ts.values| ==> r.Err? && r.error.InsufficientData?
    ensures 0 < window <= |ts.values| ==> r.Ok?
    ensures r.Ok? ==> var m := |ts.values| - window + 1;
      |r.value.means| == m && |r.value.stds| == m && |r.value.mins| == m && |r.value.maxs| == m
    ensures r.Ok? ==> r.value.means == WindowMeans(ts.values, window)
    ensures r.Ok? ==> forall i {:trigger r.value.stds[i]} :: 0 <= i < |r.value.stds| ==>
      r.value.stds[i] == sqrt(Variance(ts.values[i..i + window]))
    ensures r.Ok? ==> forall i {:trigger r.value.mins[i]} :: 0 <= i < |r.value.mins| ==>
      r.value.mins[i] == MinOf(ts.values[i..i + window])
    ensures r.Ok? ==> forall i {:trigger r.value.maxs[i]} :: 0 <= i < |r.value.maxs| ==>
      r.value.maxs[i] == MaxOf(ts.values[i..i + window])
    ensures r.Ok? ==> forall i {:trigger r.value.stds[i]} :: 0 <= i < |r.value.stds| ==>
      r.value.stds[i] >= 0.0 && r.value.mins[i] <= r.value.means[i] <= r.value.maxs[i]
  {
    var v, n := ts.values, |ts.values|;
    if window == 0 {
      return Err(InvalidParameter("Window size must be greater than 0"));
    }
    if window > n {
      return Err(InsufficientData("Window size is larger than series length"));
    }
    var means, stds, mins, maxs := RollingWindows(v, window, sqrt);
    RollingBounds(v, window, means, stds, mins, maxs, sqrt);
    return Ok(RollingStats(means, stds, mins, maxs));
  }

  /** The standard deviation of every run of `window` consecutive values, in order. */
  function WindowStds(v: seq<real>, window: nat, sqrt: real -> real): (r: seq<real>)
    requires 0 < window <= |v|
    ensures |r| == |v| - window + 1
    ensures forall i {:trigger r[i]} :: 0 <= i < |r| ==> r[i] == sqrt(Variance(v[i..i + window]))
  {
    seq(|v| - window + 1, i requires 0 <= i <= |v| - window => sqrt(Variance(v[i..i + window])))
  }

  /** The least value of every run of `window` consecutive values, in order. */
  function WindowMins(v: seq<real>, window: nat): (r: seq<real>)
    requires 0 < window <= |v|
    ensures |r| == |v| - window + 1
    ensures forall i {:trigger r[i]} :: 0 <= i < |r| ==> r[i] == MinOf(v[i..i + window])
  {
    seq(|v| - window + 1, i requires 0 <= i <= |v| - window => MinOf(v[i..i + window]))
  }

  /** The largest value of every run of `window` consecutive values, in order. */
  function WindowMaxs(v: seq<real>, window: nat): (r: seq<real>)
    requires 0 < window <= |v|
    ensures |r| == |v| - window + 1
    ensures forall i {:trigger r[i]} :: 0 <= i < |r| ==> r[i] == MaxOf(v[i..i + window])
  {
    seq(|v| - window + 1, i requires 0 <= i <= |v| - window => MaxOf(v[i..i + window]))
  }

  /** The loop of `rolling_statistics`: one entry per window position in each of the four sequences. */
  method RollingWindows(v: seq<real>, window: nat, sqrt: real -> real)
    returns (means: seq<real>, stds: seq<real>, mins: seq<real>, maxs: seq<real>)
    requires 0 < window <= |v|
    ensures means == WindowMeans(v, window) && stds == WindowStds(v, window, sqrt)
    ensures mins == WindowMins(v, window) && maxs == WindowMaxs(v, window)
  {
    var n := |v|;
    ghost var wMeans, wStds := WindowMeans(v, window), WindowStds(v, window, sqrt);
    ghost var wMins, wMaxs := WindowMins(v, window), WindowMaxs(v, window);
    means, stds, mins, maxs := [], [], [], [];
    for i := 0 to n - window + 1
      invariant means == wMeans[..i] && stds == wStds[..i]
      invariant mins == wMins[..i] && maxs == wMaxs[..i]
    {
      var mean, std, least, largest := WindowAt(v, window, i, sqrt);
      PrefixAppend(wMeans, i);
      PrefixAppend(wStds, i);
      PrefixAppend(wMins, i);
      PrefixAppend(wMaxs, i);
      means := means + [mean];
      stds := stds + [std];
      mins := mins + [least];
      maxs := maxs + [largest];
    }
    assert wMeans[..n - window + 1] == wMeans && wStds[..n - window + 1] == wStds;
    assert wMins[..n - window + 1] == wMins && wMaxs[..n - window + 1] == wMaxs;
  }

  lemma PrefixAppend(s: seq<real>, i: nat)
    requires i < |s|
    ensures s[..i + 1] == s[..i] + [s[i]]
  {
  }

  /** The four statistics of the window at position `i`. */
  method WindowAt(v: seq<real>, window: nat, i: nat, sqrt: real -> real) returns (mean: real, std: real, least: real, largest: real)
    requires 0 < window && i + window <= |v|
    ensures mean == WindowMeans(v, window)[i] && std == WindowStds(v, window, sqrt)[i]
    ensures least == WindowMins(v, window)[i] && largest == WindowMaxs(v, window)[i]
  {
    var windowData := v[i..i + window];
    mean, std, least, largest := WindowStatistics(windowData, sqrt);
  }

  /** The four statistics of one window, as the body of the loop computes them. */
  method WindowStatistics(windowData: seq<real>, sqrt: real -> real) returns (mean: real, std: real, least: real, largest: real)
    requires |windowData| > 0
    ensures mean == Mean(windowData) && std == sqrt(Variance(windowData))
    ensures least == MinOf(windowData) && largest == MaxOf(windowData)
  {
    mean := Sum(windowData) / |windowData| as real;
    var variance := SumSqDev(windowData, mean) / |windowData| as real;
    std := sqrt(variance);
    least := MinOf(windowData);
    largest := MaxOf(windowData);
  }

  lemma RollingBounds(v: seq<real>, window: nat, means: seq<real>, stds: seq<real>, mins: seq<real>,
                      maxs: seq<real>, sqrt: real -> real)
    requires SqrtLike(sqrt) && 0 < window <= |v|
    requires means == WindowMeans(v, window) && stds == WindowStds(v, window, sqrt)
    requires mins == WindowMins(v, window) && maxs == WindowMaxs(v, window)
    ensures forall k :: 0 <= k < |means| ==> stds[k] >= 0.0 && mins[k] <= means[k] <= maxs[k]
  {
    forall k | 0 <= k < |means|
      ensures stds[k] >= 0.0 && mins[k] <= means[k] <= maxs[k]
    {
      MeanBetweenMinMax(v[k..k + window]);
    }
  }

  /** The rolling means and the moving average of the same window agree, error for error. */
  method RollingMeansAreMovingAverage(ts: TimeSeries, window: nat, sqrt: real -> real)
    returns (rolling: Result<RollingStats>, average: Result<seq<real>>)
    requires SqrtLike(sqrt)
    ensures rolling.Ok? <==> average.Ok?
    ensures rolling.Ok? ==> rolling.value.means == average.value
  {
    rolling := RollingStatistics(ts, window, sqrt);
    average := MovingAverage(ts, window);
  }

  /** Rolling statistics of [1, 2, 3, 4, 5] with window 3: three positions, the first mean is 2. */
  method RollingExample(sqrt: real -> real) returns (means: seq<real>)
    requires SqrtLike(sqrt)
    ensures |means| == 3 && means[0] == 2.0
  {
    var v := [1.0, 2.0, 3.0, 4.0, 5.0];
    var r := RollingStatistics(FromValues(v), 3, sqrt);
    means := r.value.means;
    assert v[0..3] == [1.0, 2.0, 3.0];
    assert Sum([1.0, 2.0, 3.0]) == 6.0 by {
      assert [1.0, 2.0, 3.0][..2] == [1.0, 2.0];
      assert [1.0, 2.0][..1] == [1.0];
      assert [1.0][..0] == [];
    }
  }

  /** Lag features of [1, 2, 3, 4, 5] for lags 1 and 2: the series without its last one and two samples. */
  method LagExample() returns (features: seq<seq<real>>)
    ensures features == [[1.0, 2.0, 3.0, 4.0], [1.0, 2.0, 3.0]]
  {
    var v := [1.0, 2.0, 3.0, 4.0, 5.0];
    var lags := [1, 2];
    var r := CreateLagFeatures(FromValues(v), lags);
    assert !(exists k :: 0 <= k < |lags| && lags[k] >= |v|);
    features := r.value;
    assert |features| == 2 && features[0] == v[..4] && features[1] == v[..3];
    assert v[..4] == [1.0, 2.0, 3.0, 4.0] && v[..3] == [1.0, 2.0, 3.0];
  }

  // ---------------------------------------------------------------- trend slope

  /** `sum_{i < k} (i - xm) * (data[i] - ym)`. */
  function SlopeNumerator(data: seq<real>, xm: real, ym: real, k: nat): real
    requires k <= |data|
  {
    if k == 0 then 0.0 else SlopeNumerator(data, xm, ym, k - 1) + ((k - 1) as real - xm) * (data[k - 1] - ym)
  }

  /** `sum_{i < k} (i - xm)^2`. */
  function SlopeDenominator(xm: real, k: nat): (r: real)
    ensures r >= 0.0
  {
    if k == 0 then 0.0 else SlopeDenominator(xm, k - 1) + Square((k - 1) as real - xm)
  }

  /** `sum_{i < k} (i - xm)`. */
  function CenteredIndexSum(xm: real, k: nat): real
  {
    if k == 0 then 0.0 else CenteredIndexSum(xm, k - 1) + ((k - 1) as real - xm)
  }

  /** The mean index of a window of `n` samples. */
  function IndexMean(n: nat): real
  {
    (n as real - 1.0) / 2.0
  }

  /** The mean of the window, or 0 for an empty one (whose numerator is empty anyway). */
  function ValueMean(data: seq<real>): real
  {
    if |data| > 0 then Mean(data) else 0.0
  }

  /** The ordinary least-squares slope of `data` against its indices, or 0 when all indices coincide. */
  function Slope(data: seq<real>): real
  {
    var den := SlopeDenominator(IndexMean(|data|), |data|);
    if den == 0.0 then 0.0 else SlopeNumerator(data, IndexMean(|data|), ValueMean(data), |data|) / den
  }

  /** `calculate_slope`: accumulates numerator and denominator over the window. */
  method CalculateSlope(data: seq<real>) returns (slope: real)
    ensures slope == Slope(data)
  {
    var n := |data| as real;
    var xMean := (n - 1.0) / 2.0;
    var yMean := if |data| > 0 then Sum(data) / n else 0.0;
    var numerator, denominator := 0.0, 0.0;
    for i := 0 to |data|
      invariant numerator == SlopeNumerator(data, xMean, yMean, i)
      invariant denominator == SlopeDenominator(xMean, i)
    {
      var x := i as real;
      numerator := numerator + (x - xMean) * (data[i] - yMean);
      denominator := denominator + Square(x - xMean);
    }
    slope := if denominator == 0.0 then 0.0 else numerator / denominator;
  }

  /** With two or more samples the denominator is positive, so the slope is a true quotient. */
  lemma SlopeDenominatorPositive(n: nat)
    requires n >= 2
    ensures SlopeDenominator(IndexMean(n), n) > 0.0
  {
    var xm := IndexMean(n);
    DenominatorGrows(xm, 2, n);
    assert SlopeDenominator(xm, 1) == Square(0.0 - xm);
    assert SlopeDenominator(xm, 2) == Square(0.0 - xm) + Square(1.0 - xm);
  }

  lemma {:induction false} DenominatorGrows(xm: real, j: nat, k: nat)
    requires j <= k
    ensures SlopeDenominator(xm, j) <= SlopeDenominator(xm, k)
    decreases k
  {
    if j < k {
      DenominatorGrows(xm, j, k - 1);
    }
  }

  /** The centred indices sum to zero: `sum_{i < n} (i - (n - 1) / 2) == 0`. */
  lemma CenteredIndicesCancel(n: nat)
    ensures CenteredIndexSum(IndexMean(n), n) == 0.0
  {
    CenteredIndexSumClosed(IndexMean(n), n);
    assert n as real * (n as real - 1.0) / 2.0 == n as real * IndexMean(n);
  }

  lemma {:induction false} CenteredIndexSumClosed(xm: real, k: nat)
    ensures CenteredIndexSum(xm, k) == k as real * (k as real - 1.0) / 2.0 - k as real * xm
  {
    if k > 0 {
      CenteredIndexSumClosed(xm, k - 1);
      var m := (k - 1) as real;
      assert m * (m - 1.0) / 2.0 + m == (m + 1.0) * m / 2.0;
    }
  }

  /** A constant window has slope 0. */
  lemma SlopeOfConstant(data: seq<real>, c: real)
    requires forall i :: 0 <= i < |data| ==> data[i] == c
    ensures Slope(data) == 0.0
  {
    if |data| > 0 {
      SumConstant(data, c);
      assert ValueMean(data) == c;
    }
    NumeratorOfConstant(data, IndexMean(|data|), ValueMean(data), |data|, c);
  }

  lemma {:induction false} NumeratorOfConstant(data: seq<real>, xm: real, ym: real, k: nat, c: real)
    requires k <= |data| && (k > 0 ==> ym == c)
    requires forall i :: 0 <= i < |data| ==> data[i] == c
    ensures SlopeNumerator(data, xm, ym, k) == 0.0
  {
    if k > 0 {
      NumeratorOfConstant(data, xm, ym, k - 1, c);
      assert data[k - 1] - ym == 0.0;
      ZeroFactor((k - 1) as real - xm, data[k - 1] - ym);
      assert SlopeNumerator(data, xm, ym, k)
             == SlopeNumerator(data, xm, ym, k - 1) + ((k - 1) as real - xm) * (data[k - 1] - ym);
    }
  }

  lemma ZeroFactor(x: real, y: real)
    requires y == 0.0
    ensures x * y == 0.0
  {
  }

  /** A linear window `a + b * i` of at least two samples has slope exactly `b`. */
  lemma SlopeOfLinear(data: seq<real>, a: real, b: real)
    requires |data| >= 2
    requires forall i :: 0 <= i < |data| ==> data[i] == a + b * i as real
    ensures Slope(data) == b
  {
    var n, xm, ym := |data|, IndexMean(|data|), ValueMean(data);
    NumeratorOfLinear(data, a, b, xm, ym, n);
    CenteredIndicesCancel(n);
    SlopeDenominatorPositive(n);
    var den := SlopeDenominator(xm, n);
    assert SlopeNumerator(data, xm, ym, n) == b * den;
    QuotientOfMultiple(b, den);
  }

  lemma QuotientOfMultiple(b: real, den: real)
    requires den != 0.0
    ensures b * den / den == b
  {
  }

  /** `b` times the denominator plus `a + b * xm - ym` times the centred index sum. */
  function LinearNumerator(a: real, b: real, xm: real, ym: real, k: nat): real
  {
    b * SlopeDenominator(xm, k) + (a + b * xm - ym) * CenteredIndexSum(xm, k)
  }

  /** The numerator of a linear window splits into `b` times the denominator plus a multiple of
      the centred index sum. */
  lemma {:induction false} NumeratorOfLinear(data: seq<real>, a: real, b: real, xm: real, ym: real, k: nat)
    requires k <= |data|
    requires forall i :: 0 <= i < |data| ==> data[i] == a + b * i as real
    ensures SlopeNumerator(data, xm, ym, k) == LinearNumerator(a, b, xm, ym, k)
  {
    if k > 0 {
      NumeratorOfLinear(data, a, b, xm, ym, k - 1);
      NumeratorStep(data, a, b, xm, ym, k);
    }
  }

  /** One summand of the slope numerator of linear data, split as the ensures of
      `NumeratorOfLinear` needs it. */
  lemma NumeratorStep(data: seq<real>, a: real, b: real, xm: real, ym: real, k: nat)
    requires 0 < k <= |data|
    requires forall i :: 0 <= i < |data| ==> data[i] == a + b * i as real
    ensures SlopeNumerator(data, xm, ym, k) - SlopeNumerator(data, xm, ym, k - 1)
            == LinearNumerator(a, b, xm, ym, k) - LinearNumerator(a, b, xm, ym, k - 1)
  {
    var i := (k - 1) as real;
    assert data[k - 1] == a + b * i;
    TermSplit(i, xm, a, b, ym);
    Distributes(b, SlopeDenominator(xm, k - 1), Square(i - xm));
    Distributes(a + b * xm - ym, CenteredIndexSum(xm, k - 1), i - xm);
  }

  lemma Distributes(x: real, p: real, q: real)
    ensures x * (p + q) == x * p + x * q
  {
  }

  lemma TermSplit(i: real, xm: real, a: real, b: real, ym: real)
    ensures (i - xm) * (a + b * i - ym) == b * Square(i - xm) + (a + b * xm - ym) * (i - xm)
  {
  }

  /** `trend_features`: refuses a window below 2; otherwise the slope of every window position. */
  method TrendFeatures(ts: TimeSeries, window: nat) returns (r: Result<seq<real>>)
    requires 2 <= window ==> window <= |ts.values|
    ensures r.Err? <==> window < 2
    ensures r.Err? ==> r.error.InvalidParameter?
    ensures r.Ok? ==> |r.value| == |ts.values| - window + 1
                      && forall i :: 0 <= i < |r.value| ==> r.value[i] == Slope(ts.values[i..i + window])
  {
    var v, n := ts.values, |ts.values|;
    if window < 2 {
      return Err(InvalidParameter("Window size must be at least 2 for trend calculation"));
    }
    var trends := [];
    for i := 0 to n - window + 1
      invariant |trends| == i
      invariant forall k :: 0 <= k < i ==> trends[k] == Slope(v[k..k + window])
    {
      var slope := CalculateSlope(v[i..i + window]);
      trends := trends + [slope];
    }
    return Ok(trends);
  }

  // ---------------------------------------------------------------- rate of change

  /** `rate_of_change`: refuses `periods == 0` and `periods >= len`; otherwise the relative change
      over `periods` steps ending at each index from `periods` on. */
  method RateOfChange(ts: TimeSeries, periods: nat) returns (r: Result<seq<real>>)
    ensures periods == 0 ==> r.Err? && r.error.InvalidParameter?
    ensures 0 < periods && periods >= |ts.values| ==> r.Err? && r.error.InsufficientData?
    ensures 0 < periods < |ts.values| ==>
              r.Ok? && |r.value| == |ts.values| - periods
              && forall i :: 0 <= i < |r.value| ==>
                   r.value[i] == RelativeChange(ts.values[i], ts.values[i + periods])
    ensures periods == 1 && r.Ok? ==> r.value == PctChange(ts.values)
  {
    var v, n := ts.values, |ts.values|;
    if periods == 0 {
      return Err(InvalidParameter("Periods must be greater than 0"));
    }
    if periods >= n {
      return Err(InsufficientData("Periods is too large for the time series"));
    }
    var roc := [];
    for i := periods to n
      invariant |roc| == i - periods
      invariant forall k :: 0 <= k < i - periods ==> roc[k] == RelativeChange(v[k], v[k + periods])
    {
      var change := if v[i - periods] == 0.0 then 0.0 else (v[i] - v[i - periods]) / v[i - periods];
      assert change == RelativeChange(v[i - periods], v[i]);
      roc := roc + [change];
    }
    if periods == 1 {
      assert roc == PctChange(v);
    }
    return Ok(roc);
  }
}
