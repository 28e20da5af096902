/** Classical seasonal decomposition (decomposition.rs): a centred moving-average trend,
    the series with the trend removed, a per-phase seasonal pattern tiled over the series,
    and the residual. `None` stands for the NaN the library writes where a value is undefined. */
module Decomposition {
  import opened Telemetry
  import opened Numeric
  import opened Series

  /** Whether the components add up (Y = T + S + R) or multiply (Y = T * S * R). */
  datatype DecompositionType = Additive | Multiplicative

  /** A decomposer. The library only builds one through `new`, so its period is positive. */
  datatype Decomposer = Decomposer(decompositionType: DecompositionType, period: nat)

  /** Three components, each as long as the decomposed series. */
  datatype DecompositionResult = DecompositionResult(
    trend: seq<Option<real>>,
    seasonal: seq<real>,
    residual: seq<Option<real>>)

  /** How two components combine in each mode. */
  function Combine(mode: DecompositionType, a: real, b: real): real
  {
    match mode
    case Additive => a + b
    case Multiplicative => a * b
  }

  /** `Decomposer::new`: a zero period is refused. */
  function NewDecomposer(mode: DecompositionType, period: nat): (r: Result<Decomposer>)
    ensures r.Err? <==> period == 0
    ensures r.Err? ==> r.error.InvalidParameter?
    ensures r.Ok? ==> r.value.decompositionType == mode && r.value.period == period
  {
    if period == 0 then Err(InvalidParameter("Period must be greater than 0"))
    else Ok(Decomposer(mode, period))
  }

  // ---------------------------------------------------------------- trend

  /** The trend at index `i`: undefined within `period / 2` of either end, elsewhere the sum of
      the `2 * (period / 2) + 1` samples centred on `i`, divided by `period`. */
  function TrendAt(values: seq<real>, period: nat, i: nat): Option<real>
    requires period > 0 && i < |values|
  {
    var h := period / 2;
    if i < h || i + h >= |values| then None else Some(Sum(values[i - h..i + h + 1]) / period as real)
  }

  /** `calculate_trend`: NaN padding, centred window sums, NaN padding. */
  method CalculateTrend(d: Decomposer, ts: TimeSeries) returns (trend: seq<Option<real>>)
    requires d.period > 0 && |ts.values| >= 2 * d.period
    ensures |trend| == |ts.values|
    ensures forall i :: 0 <= i < |trend| ==> trend[i] == TrendAt(ts.values, d.period, i)
  {
    var values, n, h := ts.values, |ts.values|, d.period / 2;
    trend := [];
    for i := 0 to h
      invariant |trend| == i
      invariant forall k :: 0 <= k < i ==> trend[k] == TrendAt(values, d.period, k)
    {
      trend := trend + [None];
    }
    for i := h to n - h
      invariant |trend| == i
      invariant forall k :: 0 <= k < i ==> trend[k] == TrendAt(values, d.period, k)
    {
      var sum := Sum(values[i - h..i + h + 1]);
      trend := trend + [Some(sum / d.period as real)];
    }
    for i := 0 to h
      invariant |trend| == n - h + i
      invariant forall k :: 0 <= k < n - h + i ==> trend[k] == TrendAt(values, d.period, k)
    {
      trend := trend + [None];
    }
  }

  /** The trend is defined exactly away from the ends. */
  lemma TrendDefinedExactly(values: seq<real>, period: nat, i: nat)
    requires period > 0 && i < |values|
    ensures TrendAt(values, period, i).Some? <==> period / 2 <= i < |values| - period / 2
  {
  }

  /** For an odd period the window holds `period` samples, so the trend is the window mean. */
  lemma TrendOddPeriodIsMean(values: seq<real>, period: nat, i: nat)
    requires period > 0 && period % 2 == 1 && i < |values| && TrendAt(values, period, i).Some?
    ensures TrendAt(values, period, i) == Some(Mean(values[i - period / 2..i + period / 2 + 1]))
  {
  }

  /** On a constant series the trend is `c * (2 * (period / 2) + 1) / period`: the constant for an
      odd period, but `c * (period + 1) / period` for an even one, as the code is written. */
  lemma TrendOfConstant(values: seq<real>, period: nat, i: nat, c: real)
    requires period > 0 && i < |values| && TrendAt(values, period, i).Some?
    requires forall k :: 0 <= k < |values| ==> values[k] == c
    ensures TrendAt(values, period, i).value == (2 * (period / 2) + 1) as real * c / period as real
    ensures period % 2 == 1 ==> TrendAt(values, period, i).value == c
    ensures period % 2 == 0 ==> TrendAt(values, period, i).value == c * (period + 1) as real / period as real
  {
    var h := period / 2;
    var w := values[i - h..i + h + 1];
    assert |w| == 2 * h + 1;
    SumConstant(w, c);
    assert Sum(w) == (2 * (period / 2) + 1) as real * c;
    assert TrendAt(values, period, i).value == Sum(w) / period as real;
    WidthByParity(period, c);
  }

  /** `c * (2 * (period / 2) + 1) / period` is `c` for an odd period, `c * (period + 1) / period`
      for an even one. */
  lemma WidthByParity(period: nat, c: real)
    requires period > 0
    ensures period % 2 == 1 ==> (2 * (period / 2) + 1) as real * c / period as real == c
    ensures period % 2 == 0 ==> (2 * (period / 2) + 1) as real * c / period as real == c * (period + 1) as real / period as real
  {
    if period % 2 == 1 {
      assert (2 * (period / 2) + 1) as real == period as real;
      DivideOut(c, period as real);
    } else {
      assert (2 * (period / 2) + 1) as real == (period + 1) as real;
    }
  }

  lemma DivideOut(c: real, p: real)
    requires p != 0.0
    ensures p * c / p == c
  {
  }

  // ---------------------------------------------------------------- detrend

  /** One detrended entry: NaN where the trend is NaN (or zero, when dividing). */
  function DetrendOne(mode: DecompositionType, v: real, t: Option<real>): Option<real>
  {
    if t.None? then None
    else match mode
      case Additive => Some(v - t.value)
      case Multiplicative => if t.value == 0.0 then None else Some(v / t.value)
  }

  /** `detrend`: the series with the trend taken out, entry by entry. */
  function Detrend(mode: DecompositionType, values: seq<real>, trend: seq<Option<real>>): (r: seq<Option<real>>)
    requires |trend| == |values|
    ensures |r| == |values|
    ensures forall i :: 0 <= i < |r| ==>
              (r[i].Some? <==> trend[i].Some? && (mode.Multiplicative? ==> trend[i].value != 0.0))
    ensures forall i :: 0 <= i < |r| && r[i].Some? ==> Combine(mode, trend[i].value, r[i].value) == values[i]
  {
    seq(|values|, i requires 0 <= i < |values| => DetrendOne(mode, values[i], trend[i]))
  }

  // ---------------------------------------------------------------- seasonal

  /** Sum of the defined entries of `s` at phase `q` (index mod `period`). */
  function PhaseSum(s: seq<Option<real>>, period: nat, q: nat): real
    requires period > 0
  {
    if |s| == 0 then 0.0
    else
      var i := |s| - 1;
      PhaseSum(s[..i], period, q) + (if i % period == q && s[i].Some? then s[i].value else 0.0)
  }

  /** Number of the defined entries of `s` at phase `q`. */
  function PhaseCount(s: seq<Option<real>>, period: nat, q: nat): nat
    requires period > 0
  {
    if |s| == 0 then 0
    else
      var i := |s| - 1;
      PhaseCount(s[..i], period, q) + (if i % period == q && s[i].Some? then 1 else 0)
  }

  lemma PhaseStep(s: seq<Option<real>>, period: nat, i: nat)
    requires period > 0 && i < |s|
    ensures forall q :: PhaseSum(s[..i + 1], period, q)
                        == PhaseSum(s[..i], period, q) + (if i % period == q && s[i].Some? then s[i].value else 0.0)
    ensures forall q :: PhaseCount(s[..i + 1], period, q)
                        == PhaseCount(s[..i], period, q) + (if i % period == q && s[i].Some? then 1 else 0)
  {
    assert s[..i + 1][..i] == s[..i];
  }

  /** A phase without defined entries has sum zero. */
  lemma {:induction false} PhaseEmpty(s: seq<Option<real>>, period: nat, q: nat)
    requires period > 0 && PhaseCount(s, period, q) == 0
    ensures PhaseSum(s, period, q) == 0.0
  {
    if |s| > 0 {
      PhaseEmpty(s[..|s| - 1], period, q);
    }
  }

  /** The per-phase averages of the defined entries (0 for a phase with none). */
  function RawPattern(s: seq<Option<real>>, period: nat): (r: seq<real>)
    requires period > 0
    ensures |r| == period
  {
    seq(period, q requires 0 <= q < period =>
      if PhaseCount(s, period, q) > 0 then PhaseSum(s, period, q) / PhaseCount(s, period, q) as real else 0.0)
  }

  /** Centre the pattern on 0 (additive) or rescale it to mean 1 (multiplicative, non-zero mean). */
  function Normalize(mode: DecompositionType, raw: seq<real>): (r: seq<real>)
    requires |raw| > 0
    ensures |r| == |raw|
  {
    match mode
    case Additive => Shifted(raw, Mean(raw))
    case Multiplicative => if Mean(raw) != 0.0 then Scaled(raw, Mean(raw)) else raw
  }

  /** The normalised one-period seasonal pattern of a detrended series. */
  function SeasonalPattern(d: Decomposer, detrended: seq<Option<real>>): (r: seq<real>)
    requires d.period > 0
    ensures |r| == d.period
  {
    Normalize(d.decompositionType, RawPattern(detrended, d.period))
  }

  /** An additive pattern sums to zero over one period. */
  lemma AdditivePatternSumsToZero(d: Decomposer, detrended: seq<Option<real>>)
    requires d.period > 0 && d.decompositionType.Additive?
    ensures Sum(SeasonalPattern(d, detrended)) == 0.0
  {
    CenteredSumsToZero(RawPattern(detrended, d.period));
  }

  /** A multiplicative pattern averages to one, unless the raw averages have mean zero. */
  lemma MultiplicativePatternMeanOne(d: Decomposer, detrended: seq<Option<real>>)
    requires d.period > 0 && d.decompositionType.Multiplicative?
    requires Mean(RawPattern(detrended, d.period)) != 0.0
    ensures Mean(SeasonalPattern(d, detrended)) == 1.0
  {
    RescaledMeanIsOne(RawPattern(detrended, d.period));
  }

  /** `calculate_seasonal`: accumulate per phase, average, normalise, tile. */
  method CalculateSeasonal(d: Decomposer, detrended: seq<Option<real>>) returns (seasonal: seq<real>)
    requires d.period > 0
    ensures |seasonal| == |detrended|
    ensures forall i :: 0 <= i < |seasonal| ==> seasonal[i] == SeasonalPattern(d, detrended)[i % d.period]
    ensures forall i :: 0 <= i && i + d.period < |seasonal| ==> seasonal[i] == seasonal[i + d.period]
  {
    var avgs, counts := PhaseTotals(detrended, d.period);
    ghost var raw := RawPattern(detrended, d.period);
    ghost var sums := avgs[..];
    Average(avgs, counts);
    forall q | 0 <= q < d.period
      ensures avgs[q] == raw[q]
    {
      if PhaseCount(detrended, d.period, q) == 0 {
        PhaseEmpty(detrended, d.period, q);
      }
    }
    assert avgs[..] == raw;
    NormalizeInPlace(d.decompositionType, avgs);
    seasonal := Tile(avgs[..], |detrended|);
  }

  /** The per-phase sums and counts of the defined entries, in two fresh arrays. */
  method PhaseTotals(detrended: seq<Option<real>>, p: nat) returns (sums: array<real>, counts: array<nat>)
    requires p > 0
    ensures fresh(sums) && fresh(counts) && sums.Length == p && counts.Length == p
    ensures forall q :: 0 <= q < p ==> sums[q] == PhaseSum(detrended, p, q)
    ensures forall q :: 0 <= q < p ==> counts[q] == PhaseCount(detrended, p, q)
  {
    sums := new real[p](_ => 0.0);
    counts := new nat[p](_ => 0);
    for i := 0 to |detrended|
      invariant forall q :: 0 <= q < p ==> sums[q] == PhaseSum(detrended[..i], p, q)
      invariant forall q :: 0 <= q < p ==> counts[q] == PhaseCount(detrended[..i], p, q)
    {
      PhaseStep(detrended, p, i);
      if detrended[i].Some? {
        var pos := i % p;
        sums[pos] := sums[pos] + detrended[i].value;
        counts[pos] := counts[pos] + 1;
      }
    }
    assert detrended[..|detrended|] == detrended;
  }

  /** Turns the per-phase sums into averages in place (a phase with no entries keeps 0). */
  method Average(avgs: array<real>, counts: array<nat>)
    requires avgs.Length == counts.Length
    modifies avgs
    ensures forall q :: 0 <= q < avgs.Length ==>
              avgs[q] == if counts[q] > 0 then old(avgs[q]) / counts[q] as real else old(avgs[q])
  {
    for q := 0 to avgs.Length
      invariant forall k :: 0 <= k < q ==>
                  avgs[k] == if counts[k] > 0 then old(avgs[k]) / counts[k] as real else old(avgs[k])
      invariant forall k :: q <= k < avgs.Length ==> avgs[k] == old(avgs[k])
    {
      if counts[q] > 0 {
        avgs[q] := avgs[q] / counts[q] as real;
      }
    }
  }

  /** Centres the pattern on 0 or rescales it to mean 1, in place. */
  method NormalizeInPlace(mode: DecompositionType, avgs: array<real>)
    requires avgs.Length > 0
    modifies avgs
    ensures avgs[..] == Normalize(mode, old(avgs[..]))
  {
    ghost var raw := avgs[..];
    var mean := Sum(avgs[..]) / avgs.Length as real;
    match mode {
      case Additive =>
        for q := 0 to avgs.Length
          invariant forall k :: 0 <= k < q ==> avgs[k] == raw[k] - mean
          invariant forall k :: q <= k < avgs.Length ==> avgs[k] == raw[k]
        {
          avgs[q] := avgs[q] - mean;
        }
      case Multiplicative =>
        if mean != 0.0 {
          for q := 0 to avgs.Length
            invariant forall k :: 0 <= k < q ==> avgs[k] == raw[k] / mean
            invariant forall k :: q <= k < avgs.Length ==> avgs[k] == raw[k]
          {
            avgs[q] := avgs[q] / mean;
          }
        }
    }
  }

  /** Repeats one period of the pattern over `n` indices. */
  method Tile(pattern: seq<real>, n: nat) returns (seasonal: seq<real>)
    requires |pattern| > 0
    ensures |seasonal| == n
    ensures forall i :: 0 <= i < n ==> seasonal[i] == pattern[i % |pattern|]
    ensures forall i :: 0 <= i && i + |pattern| < n ==> seasonal[i] == seasonal[i + |pattern|]
  {
    var p := |pattern|;
    seasonal := [];
    for i := 0 to n
      invariant |seasonal| == i
      invariant forall k :: 0 <= k < i ==> seasonal[k] == pattern[k % p]
    {
      seasonal := seasonal + [pattern[i % p]];
    }
    forall i | 0 <= i && i + p < n
      ensures seasonal[i] == seasonal[i + p]
    {
      ModShift(i, p);
    }
  }

  lemma ModShift(i: nat, p: nat)
    requires p > 0
    ensures (i + p) % p == i % p
  {
    var k, m := i / p, i % p;
    assert i + p == (k + 1) * p + m;
    ModUnique(i + p, k + 1, m, p);
  }

  /** The remainder is the unique `b` in `[0, p)` with `x == a * p + b`. */
  lemma ModUnique(x: int, a: int, b: int, p: int)
    requires p > 0 && 0 <= b < p && x == a * p + b
    ensures x % p == b
  {
    var k, m := x / p, x % p;
    assert (a - k) * p == m - b;
    if a - k >= 1 {
      assert false;
    } else if a - k <= -1 {
      assert false;
    }
  }

  // ---------------------------------------------------------------- residual

  /** One residual entry: NaN where the trend is NaN, or where a multiplicative factor is zero. */
  function ResidualOne(mode: DecompositionType, v: real, t: Option<real>, s: real): Option<real>
  {
    if t.None? then None
    else match mode
      case Additive => Some(v - t.value - s)
      case Multiplicative => if t.value == 0.0 || s == 0.0 then None else Some(v / (t.value * s))
  }

  /** `calculate_residual`: what is left of each value once trend and seasonal are taken out. */
  function CalculateResidual(mode: DecompositionType, values: seq<real>, trend: seq<Option<real>>,
                             seasonal: seq<real>): (r: seq<Option<real>>)
    requires |trend| == |values| && |seasonal| == |values|
    ensures |r| == |values|
    ensures forall i :: 0 <= i < |r| ==>
              (r[i].Some? <==> trend[i].Some? && (mode.Multiplicative? ==> trend[i].value != 0.0 && seasonal[i] != 0.0))
    ensures forall i :: 0 <= i < |r| && r[i].Some? ==>
              Combine(mode, Combine(mode, trend[i].value, seasonal[i]), r[i].value) == values[i]
  {
    var r := seq(|values|, i requires 0 <= i < |values| => ResidualOne(mode, values[i], trend[i], seasonal[i]));
    assert forall i :: 0 <= i < |r| && r[i].Some? && mode.Multiplicative? ==> trend[i].value * seasonal[i] != 0.0 by {
      forall i | 0 <= i < |r| && r[i].Some? && mode.Multiplicative?
        ensures trend[i].value * seasonal[i] != 0.0
      {
        NonZeroProduct(trend[i].value, seasonal[i]);
      }
    }
    r
  }

  lemma NonZeroProduct(a: real, b: real)
    requires a != 0.0 && b != 0.0
    ensures a * b != 0.0
  {
    ProductPositive(Abs(a), Abs(b));
    assert Abs(a) * Abs(b) == Abs(a * b) || Abs(a) * Abs(b) == -(a * b);
  }

  // ---------------------------------------------------------------- pipeline

  /** `decompose`: refuses a series shorter than two periods; otherwise the three components, aligned
      index for index with the input, reconstruct every value at which the trend is defined. */
  method Decompose(d: Decomposer, ts: TimeSeries) returns (r: Result<DecompositionResult>)
    requires d.period > 0
    ensures r.Err? <==> |ts.values| < 2 * d.period
    ensures r.Err? ==> r.error.InsufficientData?
    ensures r.Ok? ==>
      var res, n, mode := r.value, |ts.values|, d.decompositionType;
      |res.trend| == n && |res.seasonal| == n && |res.residual| == n
      && (forall i :: 0 <= i < n ==> res.trend[i] == TrendAt(ts.values, d.period, i))
      && (forall i :: 0 <= i < n ==>
            res.seasonal[i] == SeasonalPattern(d, Detrend(mode, ts.values, res.trend))[i % d.period])
      && (forall i :: 0 <= i && i + d.period < n ==> res.seasonal[i] == res.seasonal[i + d.period])
      && res.residual == CalculateResidual(mode, ts.values, res.trend, res.seasonal)
      && (forall i :: 0 <= i < n ==>
            (res.residual[i].Some? <==>
               (res.trend[i].Some? && (mode.Multiplicative? ==> res.trend[i].value != 0.0 && res.seasonal[i] != 0.0))))
      && (forall i :: 0 <= i < n && res.residual[i].Some? ==>
            Combine(mode, Combine(mode, res.trend[i].value, res.seasonal[i]), res.residual[i].value) == ts.values[i])
  {
    if |ts.values| < 2 * d.period {
      return Err(InsufficientData("Need at least " + NatToString(2 * d.period)
                                   + " data points for period " + NatToString(d.period)));
    }
    var trend := CalculateTrend(d, ts);
    var detrended := Detrend(d.decompositionType, ts.values, trend);
    var seasonal := CalculateSeasonal(d, detrended);
    var residual := CalculateResidual(d.decompositionType, ts.values, trend, seasonal);
    return Ok(DecompositionResult(trend, seasonal, residual));
  }

  /** Additive reconstruction, index by index: value = trend + seasonal + residual wherever the trend is
      defined, and the residual is undefined exactly where the trend is. */
  lemma AdditiveReconstruction(values: seq<real>, trend: seq<Option<real>>, seasonal: seq<real>, i: nat)
    requires |trend| == |values| && |seasonal| == |values| && i < |values|
    ensures var residual := CalculateResidual(Additive, values, trend, seasonal);
            (residual[i].Some? <==> trend[i].Some?)
            && (trend[i].Some? ==> trend[i].value + seasonal[i] + residual[i].value == values[i])
  {
  }
}
