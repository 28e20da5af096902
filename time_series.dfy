/** The time-series container and its operations (time_series.rs): construction with
    timestamps, moving and exponential moving averages, differences, percentage change,
    slicing and summary statistics. */
module Series {
  import opened Telemetry
  import opened Numeric
  import opened Sorting

  /** A `chrono::DateTime<Utc>`; the model only carries timestamps along. */
  type Timestamp = int

  /** Values with optional timestamps and an optional name. */
  datatype TimeSeries = TimeSeries(values: seq<real>, timestamps: Option<seq<Timestamp>>, name: Option<string>)
  {
    /** Timestamps, when present, pair up one-to-one with the values. */
    predicate Aligned()
    {
      timestamps.Some? ==> |timestamps.value| == |values|
    }
  }

  /** `TimeSeries::new`: values only. */
  function FromValues(values: seq<real>): (ts: TimeSeries)
    ensures ts.values == values && ts.timestamps.None? && ts.name.None? && ts.Aligned()
  {
    TimeSeries(values, None, None)
  }

  /** `TimeSeries::with_timestamps`: fails unless there is one timestamp per value. */
  function WithTimestamps(values: seq<real>, timestamps: seq<Timestamp>): (r: Result<TimeSeries>)
    ensures r.Err? <==> |values| != |timestamps|
    ensures r.Err? ==> r.error.InvalidData?
    ensures r.Ok? ==> r.value.values == values && r.value.timestamps == Some(timestamps)
                      && r.value.name.None? && r.value.Aligned()
  {
    if |values| != |timestamps| then
      Err(InvalidData("Values and timestamps must have the same length"))
    else
      Ok(TimeSeries(values, Some(timestamps), None))
  }

  /** The mean of every run of `window` consecutive values, in order. */
  function WindowMeans(v: seq<real>, window: nat): (r: seq<real>)
    requires 0 < window <= |v|
    ensures |r| == |v| - window + 1
    ensures forall i {:trigger r[i]} :: 0 <= i < |r| ==> r[i] == Mean(v[i..i + window])
  {
    seq(|v| - window + 1, i requires 0 <= i <= |v| - window => Mean(v[i..i + window]))
  }

  /** `moving_average`: the mean of each window, one per window position. */
  method MovingAverage(ts: TimeSeries, window: nat) returns (r: Result<seq<real>>)
    ensures window == 0 ==> r.Err? && r.error.InvalidParameter?
    ensures 0 < window && window > |ts.values| ==> r.Err? && r.error.InsufficientData?
    ensures 0 < window <= |ts.values| ==> r == Ok(WindowMeans(ts.values, window))
  {
    var v := ts.values;
    if window == 0 {
      return Err(InvalidParameter("Window size must be greater than 0"));
    }
    if window > |v| {
      return Err(InsufficientData("Window size " + NatToString(window)
                                   + " is larger than data length " + NatToString(|v|)));
    }
    var result := [];
    for i := 0 to |v| - window + 1
      invariant |result| == i
      invariant forall k :: 0 <= k < i ==> result[k] == Mean(v[k..k + window])
    {
      var sum := Sum(v[i..i + window]);
      result := result + [sum / window as real];
    }
    assert result == WindowMeans(v, window);
    return Ok(result);
  }

  /** The exponentially smoothed level after the whole series:
      s(0) = v(0) and s(i) = alpha * v(i) + (1 - alpha) * s(i - 1). */
  function Smoothed(alpha: real, v: seq<real>): real
    requires |v| > 0
  {
    if |v| == 1 then v[0] else Blend(alpha, v[|v| - 1], Smoothed(alpha, v[..|v| - 1]))
  }

  /** One smoothing step: `alpha * value + (1 - alpha) * previous`. */
  function Blend(alpha: real, value: real, previous: real): real
  {
    alpha * value + (1.0 - alpha) * previous
  }

  /** `exponential_moving_average`: the smoothed level after every prefix. */
  method ExponentialMovingAverage(ts: TimeSeries, alpha: real) returns (r: Result<seq<real>>)
    ensures (alpha <= 0.0 || alpha > 1.0) ==> r.Err? && r.error.InvalidParameter?
    ensures 0.0 < alpha <= 1.0 && |ts.values| == 0 ==> r.Err? && r.error.InsufficientData?
    ensures 0.0 < alpha <= 1.0 && |ts.values| > 0 ==>
      r.Ok? && |r.value| == |ts.values| && r.value[0] == ts.values[0]
      && (forall i :: 1 <= i < |ts.values| ==> r.value[i] == Blend(alpha, ts.values[i], r.value[i - 1]))
      && (forall i :: 0 <= i < |ts.values| ==> r.value[i] == Smoothed(alpha, ts.values[..i + 1]))
  {
    var v := ts.values;
    if alpha <= 0.0 || alpha > 1.0 {
      return Err(InvalidParameter("Alpha must be between 0 and 1"));
    }
    if |v| == 0 {
      return Err(InsufficientData("Cannot calculate EMA on empty series"));
    }
    var result := [v[0]];
    assert v[..1] == [v[0]];
    for i := 1 to |v|
      invariant |result| == i
      invariant result[0] == v[0]
      invariant forall k :: 0 <= k < i ==> result[k] == Smoothed(alpha, v[..k + 1])
    {
      var ema := Blend(alpha, v[i], result[i - 1]);
      SmoothedStep(alpha, v, i);
      result := result + [ema];
    }
    forall i | 1 <= i < |v|
      ensures result[i] == Blend(alpha, v[i], result[i - 1])
    {
      SmoothedStep(alpha, v, i);
    }
    return Ok(result);
  }

  /** One more value moves the smoothed level by the recurrence. */
  lemma SmoothedStep(alpha: real, v: seq<real>, i: nat)
    requires 0 < i < |v|
    ensures Smoothed(alpha, v[..i + 1]) == Blend(alpha, v[i], Smoothed(alpha, v[..i]))
  {
    assert v[..i + 1][..i] == v[..i];
  }

  /** A smoothed level stays inside any interval that holds every value of the series. */
  lemma {:induction false} SmoothedWithin(alpha: real, v: seq<real>, lo: real, hi: real)
    requires 0.0 <= alpha <= 1.0 && |v| > 0
    requires forall i :: 0 <= i < |v| ==> lo <= v[i] <= hi
    ensures lo <= Smoothed(alpha, v) <= hi
  {
    if |v| > 1 {
      var init := v[..|v| - 1];
      assert forall i :: 0 <= i < |init| ==> init[i] == v[i];
      SmoothedWithin(alpha, init, lo, hi);
      ConvexWithin(alpha, v[|v| - 1], Smoothed(alpha, init), lo, hi);
      assert Smoothed(alpha, v) == Blend(alpha, v[|v| - 1], Smoothed(alpha, init));
    }
  }

  /** A convex combination of two points of an interval stays in it. */
  lemma ConvexWithin(alpha: real, x: real, y: real, lo: real, hi: real)
    requires 0.0 <= alpha <= 1.0 && lo <= x <= hi && lo <= y <= hi
    ensures lo <= Blend(alpha, x, y) <= hi
  {
    ProductPositive(alpha, x - lo);
    ProductPositive(1.0 - alpha, y - lo);
    ProductPositive(alpha, hi - x);
    ProductPositive(1.0 - alpha, hi - y);
    assert alpha * x + (1.0 - alpha) * y - lo == alpha * (x - lo) + (1.0 - alpha) * (y - lo);
    assert hi - (alpha * x + (1.0 - alpha) * y) == alpha * (hi - x) + (1.0 - alpha) * (hi - y);
  }

  /** With alpha = 1 smoothing keeps no memory: the level is the last value. */
  lemma SmoothedAlphaOne(v: seq<real>)
    requires |v| > 0
    ensures Smoothed(1.0, v) == v[|v| - 1]
  {
  }

  /** `diff`: the first differences v(i + 1) - v(i); empty for fewer than two values. */
  function Diff(v: seq<real>): (r: seq<real>)
    ensures |r| == if |v| < 2 then 0 else |v| - 1
    ensures forall i {:trigger r[i]} :: 0 <= i < |r| ==> r[i] == v[i + 1] - v[i]
  {
    if |v| < 2 then [] else seq(|v| - 1, i requires 0 <= i < |v| - 1 => v[i + 1] - v[i])
  }

  /** The first differences telescope: they add up to the last value minus the first. */
  lemma {:induction false} DiffTelescopes(v: seq<real>)
    requires |v| > 0
    ensures Sum(Diff(v)) == v[|v| - 1] - v[0]
  {
    if |v| > 1 {
      var init := v[..|v| - 1];
      DiffTelescopes(init);
      var d, di := Diff(v), Diff(init);
      assert d[..|d| - 1] == di by {
        forall i | 0 <= i < |di| ensures d[i] == di[i] {
          assert init[i] == v[i] && init[i + 1] == v[i + 1];
        }
      }
      assert Sum(d) == Sum(di) + d[|d| - 1];
    }
  }

  /** The relative change from `base` to `next`, or 0 when `base` is 0. */
  function RelativeChange(base: real, next: real): (r: real)
    ensures base == 0.0 ==> r == 0.0
    ensures base != 0.0 ==> r * base == next - base
  {
    if base == 0.0 then 0.0 else (next - base) / base
  }

  /** `pct_change`: the relative change between neighbours; empty for fewer than two values. */
  function PctChange(v: seq<real>): (r: seq<real>)
    ensures |r| == if |v| < 2 then 0 else |v| - 1
    ensures forall i {:trigger r[i]} :: 0 <= i < |r| ==>
              (v[i] == 0.0 ==> r[i] == 0.0) && (v[i] != 0.0 ==> r[i] * v[i] == v[i + 1] - v[i])
  {
    if |v| < 2 then [] else seq(|v| - 1, i requires 0 <= i < |v| - 1 => RelativeChange(v[i], v[i + 1]))
  }

  /** `slice`: the half-open range [start, end) of values and timestamps; the name is kept. */
  function Slice(ts: TimeSeries, start: nat, end: nat): (r: Result<TimeSeries>)
    requires ts.Aligned()
    ensures r.Err? <==> start >= end || end > |ts.values|
    ensures r.Err? ==> r.error.InvalidParameter?
    ensures r.Ok? ==> r.value.values == ts.values[start..end] && r.value.name == ts.name
                      && r.value.timestamps.Some? == ts.timestamps.Some?
                      && (ts.timestamps.Some? ==> r.value.timestamps.value == ts.timestamps.value[start..end])
                      && r.value.Aligned()
  {
    if start >= end || end > |ts.values| then
      Err(InvalidParameter("Invalid slice indices"))
    else
      var timestamps := match ts.timestamps
        case None => None
        case Some(t) => Some(t[start..end]);
      Ok(TimeSeries(ts.values[start..end], timestamps, ts.name))
  }

  /** Slicing a slice is slicing the original at the shifted bounds. */
  lemma SliceOfSlice(ts: TimeSeries, a: nat, b: nat, c: nat, d: nat)
    requires ts.Aligned() && a < b <= |ts.values| && c < d <= b - a
    ensures Slice(ts, a, b).Ok? && Slice(Slice(ts, a, b).value, c, d) == Slice(ts, a + c, a + d)
  {
    SubSlice(ts.values, a, b, c, d);
    if ts.timestamps.Some? {
      SubSlice(ts.timestamps.value, a, b, c, d);
    }
  }

  lemma SubSlice<T>(t: seq<T>, a: nat, b: nat, c: nat, d: nat)
    requires a < b <= |t| && c < d <= b - a
    ensures t[a..b][c..d] == t[a + c..a + d]
  {
    assert |t[a..b][c..d]| == d - c == |t[a + c..a + d]|;
    forall i | 0 <= i < d - c
      ensures t[a..b][c..d][i] == t[a + c..a + d][i]
    {
      assert t[a..b][c..d][i] == t[a..b][c + i] == t[a + c + i];
    }
  }

  /** Summary statistics of a slice. */
  datatype Statistics = Statistics(mean: real, median: real, stdDev: real, min: real, max: real, count: nat)

  /** The median of an ascending slice: the middle element, or the mean of the two middle ones. */
  function MedianOfSorted(s: seq<real>): real
    requires |s| > 0
  {
    if |s| % 2 == 0 then (s[|s| / 2 - 1] + s[|s| / 2]) / 2.0 else s[|s| / 2]
  }

  /** `Statistics::from_values`: all zeros for no values; otherwise the mean, the median of the
      sorted copy, the population standard deviation and the extremes. */
  method StatisticsOf(values: seq<real>, sqrt: real -> real) returns (st: Statistics)
    requires SqrtLike(sqrt)
    ensures |values| == 0 ==> st == Statistics(0.0, 0.0, 0.0, 0.0, 0.0, 0)
    ensures |values| > 0 ==>
      st.count == |values| && st.mean == Mean(values) && st.stdDev == sqrt(Variance(values))
      && st.min == MinOf(values) && st.max == MaxOf(values)
      && st.median == MedianOfSorted(SortedCopy(values))
    ensures st.stdDev >= 0.0 && st.min <= st.median <= st.max && st.min <= st.mean <= st.max
  {
    var count := |values|;
    if count == 0 {
      return Statistics(0.0, 0.0, 0.0, 0.0, 0.0, 0);
    }
    var mean := Sum(values) / count as real;
    var a := new real[count](i requires 0 <= i < count => values[i]);
    assert a[..] == values;
    SortBy(a, Identity);
    var sorted := a[..];
    SortedUnique(sorted, SortedCopy(values));
    var median := MedianOfSorted(sorted);
    var variance := SumSqDev(values, mean) / count as real;
    var stdDev := sqrt(variance);
    SortedEnds(values, sorted);
    MedianWithin(sorted);
    MeanBetweenMinMax(values);
    st := Statistics(mean, median, stdDev, sorted[0], sorted[count - 1], count);
  }

  /** The ends of an ascending permutation of a slice are its least and largest elements. */
  lemma SortedEnds(values: seq<real>, sorted: seq<real>)
    requires |values| > 0 && SortedBy(sorted, Identity) && multiset(sorted) == multiset(values)
    ensures |sorted| == |values| && sorted[0] == MinOf(values) && sorted[|sorted| - 1] == MaxOf(values)
  {
    assert |sorted| == |multiset(sorted)| == |values|;
    var lo, hi := MinOf(values), MaxOf(values);
    assert lo in multiset(sorted) && hi in multiset(sorted);
    assert sorted[0] in multiset(values) && sorted[|sorted| - 1] in multiset(values);
    var k :| 0 <= k < |sorted| && sorted[k] == lo;
    var m :| 0 <= m < |sorted| && sorted[m] == hi;
    assert Identity(sorted[0]) <= Identity(sorted[k]);
    assert Identity(sorted[m]) <= Identity(sorted[|sorted| - 1]);
  }

  /** The median of an ascending slice lies between its first and last elements. */
  lemma MedianWithin(s: seq<real>)
    requires |s| > 0 && SortedBy(s, Identity)
    ensures s[0] <= MedianOfSorted(s) <= s[|s| - 1]
  {
    var n := |s|;
    assert Identity(s[0]) <= Identity(s[n / 2]) <= Identity(s[n - 1]);
    if n % 2 == 0 {
      assert Identity(s[0]) <= Identity(s[n / 2 - 1]) <= Identity(s[n - 1]);
    }
  }

  /** The `moving_average` unit test: windows of three over 1..5 average to 2, 3 and 4. */
  method MovingAverageExample() returns (ma: seq<real>)
    ensures ma == [2.0, 3.0, 4.0]
  {
    var v := [1.0, 2.0, 3.0, 4.0, 5.0];
    var r := MovingAverage(FromValues(v), 3);
    ma := r.value;
    assert v[0..3] == [1.0, 2.0, 3.0] && v[1..4] == [2.0, 3.0, 4.0] && v[2..5] == [3.0, 4.0, 5.0];
    SumOfThree(1.0, 2.0, 3.0);
    SumOfThree(2.0, 3.0, 4.0);
    SumOfThree(3.0, 4.0, 5.0);
  }

  /** The statistics unit test: 1..5 has mean 3, median 3, least 1 and largest 5. */
  method StatisticsExample(sqrt: real -> real) returns (st: Statistics)
    requires SqrtLike(sqrt)
    ensures st.count == 5 && st.mean == 3.0 && st.median == 3.0 && st.min == 1.0 && st.max == 5.0
  {
    var v := seq(5, i => (i + 1) as real);
    OneToFive(v);
    st := StatisticsOf(v, sqrt);
    assert MinOf(v) <= v[0] && MaxOf(v) >= v[4];
  }

  /** The values 1..5 average to 3 and, being ascending, are their own sorted copy, with median 3. */
  lemma OneToFive(v: seq<real>)
    requires |v| == 5 && forall i :: 0 <= i < 5 ==> v[i] == (i + 1) as real
    ensures Mean(v) == 3.0 && MedianOfSorted(SortedCopy(v)) == 3.0
  {
    SumOfFive(v);
    AscendingIsSortedCopy(v);
    assert |v| % 2 == 1 && |v| / 2 == 2 && v[2] == 3.0;
    assert MedianOfSorted(v) == 3.0;
    assert Mean(v) == 15.0 / 5.0;
  }

  lemma SumOfFive(v: seq<real>)
    requires |v| == 5 && forall i :: 0 <= i < 5 ==> v[i] == (i + 1) as real
    ensures Sum(v) == 15.0
  {
    assert v[..5] == v;
    SumNext(v, 0);
    SumNext(v, 1);
    SumNext(v, 2);
    SumNext(v, 3);
    SumNext(v, 4);
  }

  lemma AscendingIsSortedCopy(v: seq<real>)
    requires forall i :: 0 <= i < |v| ==> v[i] == (i + 1) as real
    ensures SortedCopy(v) == v
  {
    assert SortedBy(v, Identity);
    SortedUnique(v, SortedCopy(v));
  }

  lemma SumOfThree(a: real, b: real, c: real)
    ensures Sum([a, b, c]) == a + b + c
  {
    assert [a, b, c][..2] == [a, b] && [a, b][..1] == [a] && [a][..0] == [];
    assert Sum([a]) == a;
    assert Sum([a, b]) == a + b;
  }
}
