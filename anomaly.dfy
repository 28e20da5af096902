/** `anomaly.rs`: the z-score, interquartile-range and moving-average filters of
    `AnomalyDetector` and the ensemble that merges the first two. Every filter walks the
    samples once and reports, in index order, the positions its test flags; `Report` is that
    walk as a function, and each `Detect*` method is proved to build exactly it. */
module AnomalyDetection {
  import opened Telemetry
  import opened Numeric
  import opened Sorting
  import opened Series

  datatype AnomalyType = Point | Contextual | Collective

  /** An f64 score as the filters can produce it: a finite value, or +inf when a positive
      distance is divided by a zero interquartile range. */
  datatype Score = Finite(value: real) | Infinite

  datatype Anomaly = Anomaly(index: nat, value: real, anomalyType: AnomalyType, score: Score)

  /** The two thresholds; `AnomalyDetector::new` is the datatype constructor itself. */
  datatype AnomalyDetector = AnomalyDetector(zThreshold: real, iqrMultiplier: real)

  /** `AnomalyDetector::default`: three standard deviations, and fences 1.5 IQRs out. */
  function Default(): (d: AnomalyDetector)
    ensures d.zThreshold == 3.0 && d.iqrMultiplier == 1.5
  {
    AnomalyDetector(3.0, 1.5)
  }

  // ---------------------------------------------------------------- reports

  /** The positions a list of anomalies reports. */
  function Indices(r: seq<Anomaly>): set<nat>
  {
    set k | 0 <= k < |r| :: r[k].index
  }

  /** Reported positions come in strictly increasing order, so none is reported twice. */
  predicate IncreasingIndices(r: seq<Anomaly>)
  {
    forall i, j :: 0 <= i < j < |r| ==> r[i].index < r[j].index
  }

  /** The anomalies of one filter pass: `verdicts[j]` is the filter's decision about sample
      `j + offset` (a score, or no anomaly), and the samples with a score are reported in order.
      Every reported position lies inside the scanned range and the positions increase. */
  function Report(v: seq<real>, verdicts: seq<Option<Score>>, offset: nat, kind: AnomalyType): (r: seq<Anomaly>)
    requires offset + |verdicts| <= |v|
    ensures forall k :: 0 <= k < |r| ==> offset <= r[k].index < offset + |verdicts|
    ensures IncreasingIndices(r)
  {
    if |verdicts| == 0 then []
    else
      var m := |verdicts| - 1;
      var init := Report(v, verdicts[..m], offset, kind);
      match verdicts[m]
      case None => init
      case Some(s) => init + [Anomaly(offset + m, v[offset + m], kind, s)]
  }

  /** Each reported anomaly carries its sample's value, the filter's kind and its verdict's score. */
  lemma {:induction false} ReportEntries(v: seq<real>, verdicts: seq<Option<Score>>, offset: nat, kind: AnomalyType,
                                         r: seq<Anomaly>)
    requires offset + |verdicts| <= |v| && r == Report(v, verdicts, offset, kind)
    ensures forall k :: 0 <= k < |r| ==>
      r[k].value == v[r[k].index] && r[k].anomalyType == kind && verdicts[r[k].index - offset] == Some(r[k].score)
  {
    if |verdicts| > 0 {
      var m := |verdicts| - 1;
      var init := Report(v, verdicts[..m], offset, kind);
      ReportEntries(v, verdicts[..m], offset, kind, init);
      if verdicts[m].Some? {
        assert r == init + [Anomaly(offset + m, v[offset + m], kind, verdicts[m].value)];
      } else {
        assert r == init;
      }
      forall k | 0 <= k < |r|
        ensures r[k].value == v[r[k].index] && r[k].anomalyType == kind && verdicts[r[k].index - offset] == Some(r[k].score)
      {
        if k < |init| {
          assert r[k] == init[k];
          assert offset <= init[k].index < offset + m;
          assert init[k].value == v[init[k].index] && init[k].anomalyType == kind;
          assert verdicts[..m][init[k].index - offset] == Some(init[k].score);
          assert verdicts[..m][init[k].index - offset] == verdicts[init[k].index - offset];
        } else {
          assert k == |init| && verdicts[m].Some?;
          assert r[k] == Anomaly(offset + m, v[offset + m], kind, verdicts[m].value);
        }
      }
    }
  }

  /** A sample in the scanned range is reported exactly when its verdict is a score. */
  lemma {:induction false} ReportComplete(v: seq<real>, verdicts: seq<Option<Score>>, offset: nat, kind: AnomalyType,
                                          r: seq<Anomaly>)
    requires offset + |verdicts| <= |v| && r == Report(v, verdicts, offset, kind)
    ensures forall p :: offset <= p < offset + |verdicts| ==> (p in Indices(r) <==> verdicts[p - offset].Some?)
  {
    if |verdicts| > 0 {
      var m := |verdicts| - 1;
      var init := Report(v, verdicts[..m], offset, kind);
      ReportComplete(v, verdicts[..m], offset, kind, init);
      IndicesBelow(init, offset + m);
      ReportIndicesStep(v, verdicts, offset, kind, r, init);
      CompleteStep(verdicts, m, offset, Indices(init), Indices(r));
    }
  }

  /** The last verdict adds its position to the reported ones exactly when it is a score. */
  lemma ReportIndicesStep(v: seq<real>, verdicts: seq<Option<Score>>, offset: nat, kind: AnomalyType,
                          r: seq<Anomaly>, init: seq<Anomaly>)
    requires offset + |verdicts| <= |v| && |verdicts| > 0 && r == Report(v, verdicts, offset, kind)
    requires init == Report(v, verdicts[..|verdicts| - 1], offset, kind)
    ensures Indices(r) == Indices(init) + (if verdicts[|verdicts| - 1].Some? then {offset + |verdicts| - 1} else {})
  {
    var m := |verdicts| - 1;
    if verdicts[m].Some? {
      IndicesAppend(init, Anomaly(offset + m, v[offset + m], kind, verdicts[m].value));
    }
  }

  /** One step of `ReportComplete`, on the sets of positions alone. */
  lemma CompleteStep(verdicts: seq<Option<Score>>, m: nat, offset: nat, before: set<nat>, after: set<nat>)
    requires m + 1 == |verdicts|
    requires forall p :: offset <= p < offset + m ==> (p in before <==> verdicts[..m][p - offset].Some?)
    requires forall x :: x in before ==> x < offset + m
    requires after == before + (if verdicts[m].Some? then {offset + m} else {})
    ensures forall p :: offset <= p < offset + |verdicts| ==> (p in after <==> verdicts[p - offset].Some?)
  {
    forall p | offset <= p < offset + |verdicts| ensures p in after <==> verdicts[p - offset].Some? {
      if p < offset + m {
        assert verdicts[..m][p - offset] == verdicts[p - offset];
      }
    }
  }

  /** Positions bounded in a list are bounded in its set of positions. */
  lemma IndicesBelow(r: seq<Anomaly>, bound: nat)
    requires forall k :: 0 <= k < |r| ==> r[k].index < bound
    ensures forall x :: x in Indices(r) ==> x < bound
  {
  }

  /** Appending an anomaly adds its position. */
  lemma IndicesAppend(r: seq<Anomaly>, a: Anomaly)
    ensures Indices(r + [a]) == Indices(r) + {a.index}
  {
    var t := r + [a];
    forall x | x in Indices(t) ensures x in Indices(r) + {a.index} {
      var k :| 0 <= k < |t| && t[k].index == x;
      if k < |r| {
        assert r[k].index == x;
      }
    }
    forall x | x in Indices(r) ensures x in Indices(t) {
      var k :| 0 <= k < |r| && r[k].index == x;
      assert t[k].index == x;
    }
    assert t[|r|].index == a.index;
  }

  /** Extending the scanned range by one verdict extends the report by at most that sample. */
  lemma ReportStep(v: seq<real>, verdicts: seq<Option<Score>>, offset: nat, kind: AnomalyType, i: nat)
    requires offset + |verdicts| <= |v| && i < |verdicts|
    ensures verdicts[i].None? ==> Report(v, verdicts[..i + 1], offset, kind) == Report(v, verdicts[..i], offset, kind)
    ensures verdicts[i].Some? ==>
      (Report(v, verdicts[..i + 1], offset, kind)
       == Report(v, verdicts[..i], offset, kind) + [Anomaly(offset + i, v[offset + i], kind, verdicts[i].value)])
  {
    assert verdicts[..i + 1][..i] == verdicts[..i];
  }

  // ---------------------------------------------------------------- z-score

  /** The z-score test of one sample. The standard deviation is zero only when every sample
      equals the mean (`ZeroSpreadMeansConstant`); the f64 quotient is then 0/0 = NaN, and NaN
      never exceeds the threshold, so such a sample is not flagged. */
  function ZVerdict(value: real, mean: real, sd: real, threshold: real): Option<Score>
  {
    if sd != 0.0 && Abs((value - mean) / sd) > threshold then Some(Finite(Abs((value - mean) / sd))) else None
  }

  function ZVerdicts(v: seq<real>, mean: real, sd: real, threshold: real): (r: seq<Option<Score>>)
    ensures |r| == |v| && forall i {:trigger r[i]} :: 0 <= i < |v| ==> r[i] == ZVerdict(v[i], mean, sd, threshold)
  {
    seq(|v|, i requires 0 <= i < |v| => ZVerdict(v[i], mean, sd, threshold))
  }

  /** What `detect_zscore` reports for a series with at least one sample. */
  function ZScoreReport(det: AnomalyDetector, v: seq<real>, sqrt: real -> real): seq<Anomaly>
    requires |v| > 0
  {
    Report(v, ZVerdicts(v, Mean(v), sqrt(Variance(v)), det.zThreshold), 0, Point)
  }

  /** `detect_zscore`: too few samples is an error; otherwise every sample whose distance from
      the mean exceeds `zThreshold` standard deviations is a point anomaly scored by that distance. */
  method DetectZScore(det: AnomalyDetector, ts: TimeSeries, sqrt: real -> real) returns (r: Result<seq<Anomaly>>)
    requires SqrtLike(sqrt)
    ensures |ts.values| < 3 ==> r.Err? && r.error.InsufficientData?
    ensures |ts.values| >= 3 ==> r == Ok(ZScoreReport(det, ts.values, sqrt))
  {
    var v := ts.values;
    if |v| < 3 {
      return Err(InsufficientData("Need at least 3 data points for Z-score detection"));
    }
    var stats := StatisticsOf(v, sqrt);
    var anomalies := ZScoreScan(v, stats.mean, stats.stdDev, det.zThreshold);
    return Ok(anomalies);
  }

  /** The loop of `detect_zscore` over the samples, given the series' mean and deviation. */
  method ZScoreScan(v: seq<real>, mean: real, sd: real, threshold: real) returns (anomalies: seq<Anomaly>)
    ensures anomalies == Report(v, ZVerdicts(v, mean, sd, threshold), 0, Point)
  {
    ghost var verdicts := ZVerdicts(v, mean, sd, threshold);
    anomalies := [];
    for i := 0 to |v|
      invariant anomalies == Report(v, verdicts[..i], 0, Point)
    {
      var value := v[i];
      ReportStep(v, verdicts, 0, Point, i);
      assert verdicts[i] == ZVerdict(value, mean, sd, threshold);
      if sd != 0.0 {
        var zScore := Abs((value - mean) / sd);
        if zScore > threshold {
          anomalies := anomalies + [Anomaly(i, value, Point, Finite(zScore))];
        }
      }
    }
    assert verdicts[..|v|] == verdicts;
  }

  /** A zero standard deviation means every sample equals the mean: the zero-spread guard of
      `ZVerdict` leaves out only samples whose f64 z-score is NaN. */
  lemma ZeroSpreadMeansConstant(v: seq<real>, sqrt: real -> real)
    requires SqrtLike(sqrt) && |v| > 0 && sqrt(Variance(v)) == 0.0
    ensures forall i :: 0 <= i < |v| ==> v[i] == Mean(v)
  {
    assert Variance(v) == 0.0;
    assert SumSqDev(v, Mean(v)) == 0.0;
    SumSqDevZero(v, Mean(v));
  }

  /** A sample is reported by the z-score filter exactly when its z-score exceeds the threshold
      (which needs a positive deviation), and then with that z-score as its score. */
  lemma ZScoreFlagsExactly(det: AnomalyDetector, v: seq<real>, sqrt: real -> real, r: seq<Anomaly>)
    requires SqrtLike(sqrt) && |v| > 0 && r == ZScoreReport(det, v, sqrt)
    ensures forall j :: 0 <= j < |v| ==>
      (j in Indices(r) <==> sqrt(Variance(v)) > 0.0 && Abs((v[j] - Mean(v)) / sqrt(Variance(v))) > det.zThreshold)
    ensures forall k :: 0 <= k < |r| ==>
      r[k].index < |v| && r[k].value == v[r[k].index] && r[k].anomalyType == Point && sqrt(Variance(v)) > 0.0
      && r[k].score == Finite(Abs((r[k].value - Mean(v)) / sqrt(Variance(v)))) && r[k].score.value > det.zThreshold
  {
    var mean, sd := Mean(v), sqrt(Variance(v));
    var verdicts := ZVerdicts(v, mean, sd, det.zThreshold);
    assert sd >= 0.0;
    ZScoreMembership(det.zThreshold, v, mean, sd, verdicts, r);
    ZScoreEntries(det.zThreshold, v, mean, sd, verdicts, r);
  }

  lemma ZScoreMembership(threshold: real, v: seq<real>, mean: real, sd: real, verdicts: seq<Option<Score>>, r: seq<Anomaly>)
    requires verdicts == ZVerdicts(v, mean, sd, threshold) && r == Report(v, verdicts, 0, Point)
    ensures forall j :: 0 <= j < |v| ==> (j in Indices(r) <==> sd != 0.0 && Abs((v[j] - mean) / sd) > threshold)
  {
    ReportComplete(v, verdicts, 0, Point, r);
    forall j | 0 <= j < |v| ensures j in Indices(r) <==> sd != 0.0 && Abs((v[j] - mean) / sd) > threshold {
      assert verdicts[j] == ZVerdict(v[j], mean, sd, threshold);
    }
  }

  lemma ZScoreEntries(threshold: real, v: seq<real>, mean: real, sd: real, verdicts: seq<Option<Score>>, r: seq<Anomaly>)
    requires verdicts == ZVerdicts(v, mean, sd, threshold) && r == Report(v, verdicts, 0, Point)
    ensures forall k :: 0 <= k < |r| ==>
      r[k].index < |v| && r[k].value == v[r[k].index] && r[k].anomalyType == Point && sd != 0.0
      && r[k].score == Finite(Abs((r[k].value - mean) / sd)) && r[k].score.value > threshold
  {
    ReportEntries(v, verdicts, 0, Point, r);
    forall k | 0 <= k < |r|
      ensures r[k].index < |v| && r[k].value == v[r[k].index] && r[k].anomalyType == Point && sd != 0.0
      && r[k].score == Finite(Abs((r[k].value - mean) / sd)) && r[k].score.value > threshold
    {
      assert verdicts[r[k].index] == ZVerdict(v[r[k].index], mean, sd, threshold) == Some(r[k].score);
    }
  }

  // ---------------------------------------------------------------- interquartile range

  /** The f64 quotient of a positive distance by a non-negative spread: +inf for a zero spread. */
  function PositiveQuotient(x: real, y: real): (s: Score)
    requires x > 0.0 && y >= 0.0
    ensures s.Infinite? <==> y == 0.0
    ensures s.Finite? ==> s.value > 0.0 && s.value * y == x
  {
    if y == 0.0 then Infinite else Finite(x / y)
  }

  /** The first quartile: element `n/4` of the sorted copy. */
  function FirstQuartile(v: seq<real>): real
    requires |v| >= 4
  {
    SortedCopy(v)[|v| / 4]
  }

  /** The third quartile: element `3n/4` of the sorted copy. */
  function ThirdQuartile(v: seq<real>): real
    requires |v| >= 4
  {
    SortedCopy(v)[3 * |v| / 4]
  }

  /** Both quartiles are samples, and the first is at most the third, so the interquartile
      range is never negative. */
  lemma QuartilesOrdered(v: seq<real>)
    requires |v| >= 4
    ensures FirstQuartile(v) <= ThirdQuartile(v)
    ensures FirstQuartile(v) in v && ThirdQuartile(v) in v
  {
    var sorted, n := SortedCopy(v), |v|;
    assert Identity(sorted[n / 4]) <= Identity(sorted[3 * n / 4]);
    assert sorted[n / 4] in multiset(v) && sorted[3 * n / 4] in multiset(v);
  }

  function LowerFence(q1: real, q3: real, k: real): real { q1 - k * (q3 - q1) }

  function UpperFence(q1: real, q3: real, k: real): real { q3 + k * (q3 - q1) }

  /** The IQR test of one sample: outside the fences it is scored by its distance beyond the
      nearer violated fence over the interquartile range. */
  function IqrVerdict(value: real, q1: real, q3: real, k: real): Option<Score>
    requires q1 <= q3
  {
    var lo, hi := LowerFence(q1, q3, k), UpperFence(q1, q3, k);
    if value < lo then Some(PositiveQuotient(lo - value, q3 - q1))
    else if value > hi then Some(PositiveQuotient(value - hi, q3 - q1))
    else None
  }

  function IqrVerdicts(v: seq<real>, q1: real, q3: real, k: real): (r: seq<Option<Score>>)
    requires q1 <= q3
    ensures |r| == |v| && forall i {:trigger r[i]} :: 0 <= i < |v| ==> r[i] == IqrVerdict(v[i], q1, q3, k)
  {
    seq(|v|, i requires 0 <= i < |v| => IqrVerdict(v[i], q1, q3, k))
  }

  /** What `detect_iqr` reports for a series with at least four samples. */
  function IqrReport(det: AnomalyDetector, v: seq<real>): seq<Anomaly>
    requires |v| >= 4
  {
    QuartilesOrdered(v);
    Report(v, IqrVerdicts(v, FirstQuartile(v), ThirdQuartile(v), det.iqrMultiplier), 0, Point)
  }

  /** `detect_iqr`: fewer than four samples is an error; otherwise the quartiles are read off a
      sorted copy and every sample outside the fences is a point anomaly. */
  method DetectIqr(det: AnomalyDetector, ts: TimeSeries) returns (r: Result<seq<Anomaly>>)
    ensures |ts.values| < 4 ==> r.Err? && r.error.InsufficientData?
    ensures |ts.values| >= 4 ==> r == Ok(IqrReport(det, ts.values))
  {
    var v := ts.values;
    if |v| < 4 {
      return Err(InsufficientData("Need at least 4 data points for IQR detection"));
    }
    var sorted := new real[|v|](i requires 0 <= i < |v| => v[i]);
    assert sorted[..] == v;
    SortBy(sorted, Identity);
    SortedUnique(sorted[..], SortedCopy(v));
    QuartilesOrdered(v);
    var n := sorted.Length;
    var q1 := sorted[n / 4];
    var q3 := sorted[3 * n / 4];
    var anomalies := IqrScan(v, q1, q3, det.iqrMultiplier);
    return Ok(anomalies);
  }

  /** The fences and the loop of `detect_iqr`, given the quartiles. */
  method IqrScan(v: seq<real>, q1: real, q3: real, multiplier: real) returns (anomalies: seq<Anomaly>)
    requires q1 <= q3
    ensures anomalies == Report(v, IqrVerdicts(v, q1, q3, multiplier), 0, Point)
  {
    var iqr := q3 - q1;
    var lowerBound := q1 - multiplier * iqr;
    var upperBound := q3 + multiplier * iqr;
    ghost var verdicts := IqrVerdicts(v, q1, q3, multiplier);
    anomalies := [];
    for i := 0 to |v|
      invariant anomalies == Report(v, verdicts[..i], 0, Point)
    {
      var value := v[i];
      ReportStep(v, verdicts, 0, Point, i);
      assert verdicts[i] == IqrVerdict(value, q1, q3, multiplier);
      assert lowerBound == LowerFence(q1, q3, multiplier) && upperBound == UpperFence(q1, q3, multiplier);
      if value < lowerBound || value > upperBound {
        var score := if value < lowerBound then PositiveQuotient(lowerBound - value, iqr)
                     else PositiveQuotient(value - upperBound, iqr);
        anomalies := anomalies + [Anomaly(i, value, Point, score)];
      }
    }
    assert verdicts[..|v|] == verdicts;
  }

  /** A sample is reported by the IQR filter exactly when it lies outside the fences. Its score
      is +inf exactly when the quartiles coincide; otherwise it is positive and is the sample's
      distance beyond the fence it crossed, in interquartile ranges. */
  lemma IqrFlagsExactly(det: AnomalyDetector, v: seq<real>, q1: real, q3: real, r: seq<Anomaly>)
    requires |v| >= 4 && q1 == FirstQuartile(v) && q3 == ThirdQuartile(v) && r == IqrReport(det, v)
    ensures q1 <= q3
    ensures forall j :: 0 <= j < |v| ==>
      (j in Indices(r) <==> v[j] < LowerFence(q1, q3, det.iqrMultiplier) || v[j] > UpperFence(q1, q3, det.iqrMultiplier))
    ensures forall k :: 0 <= k < |r| ==>
      r[k].index < |v| && r[k].value == v[r[k].index] && r[k].anomalyType == Point
      && (r[k].score.Infinite? <==> q1 == q3)
      && (r[k].score.Finite? ==>
            r[k].score.value > 0.0
            && r[k].score.value * (q3 - q1)
               == (if r[k].value < LowerFence(q1, q3, det.iqrMultiplier)
                   then LowerFence(q1, q3, det.iqrMultiplier) - r[k].value
                   else r[k].value - UpperFence(q1, q3, det.iqrMultiplier)))
  {
    QuartilesOrdered(v);
    var verdicts := IqrVerdicts(v, q1, q3, det.iqrMultiplier);
    IqrMembership(v, q1, q3, det.iqrMultiplier, verdicts, r);
    IqrEntries(v, q1, q3, det.iqrMultiplier, verdicts, r);
  }

  lemma IqrMembership(v: seq<real>, q1: real, q3: real, k: real, verdicts: seq<Option<Score>>, r: seq<Anomaly>)
    requires q1 <= q3 && verdicts == IqrVerdicts(v, q1, q3, k) && r == Report(v, verdicts, 0, Point)
    ensures forall j :: 0 <= j < |v| ==>
      (j in Indices(r) <==> v[j] < LowerFence(q1, q3, k) || v[j] > UpperFence(q1, q3, k))
  {
    ReportComplete(v, verdicts, 0, Point, r);
    forall j | 0 <= j < |v| ensures j in Indices(r) <==> v[j] < LowerFence(q1, q3, k) || v[j] > UpperFence(q1, q3, k) {
      assert verdicts[j] == IqrVerdict(v[j], q1, q3, k);
    }
  }

  lemma IqrEntries(v: seq<real>, q1: real, q3: real, m: real, verdicts: seq<Option<Score>>, r: seq<Anomaly>)
    requires q1 <= q3 && verdicts == IqrVerdicts(v, q1, q3, m) && r == Report(v, verdicts, 0, Point)
    ensures var lo, hi := LowerFence(q1, q3, m), UpperFence(q1, q3, m);
      forall k :: 0 <= k < |r| ==>
        r[k].index < |v| && r[k].value == v[r[k].index] && r[k].anomalyType == Point
        && (r[k].score.Infinite? <==> q1 == q3)
        && (r[k].score.Finite? ==>
              r[k].score.value > 0.0
              && r[k].score.value * (q3 - q1) == (if r[k].value < lo then lo - r[k].value else r[k].value - hi))
  {
    ReportEntries(v, verdicts, 0, Point, r);
    forall k | 0 <= k < |r|
      ensures r[k].score.Infinite? <==> q1 == q3
      ensures r[k].score.Finite? ==>
        r[k].score.value > 0.0
        && r[k].score.value * (q3 - q1) == (if r[k].value < LowerFence(q1, q3, m) then LowerFence(q1, q3, m) - r[k].value else r[k].value - UpperFence(q1, q3, m))
    {
      assert verdicts[r[k].index] == IqrVerdict(v[r[k].index], q1, q3, m) == Some(r[k].score);
      IqrScore(r[k].value, q1, q3, m, r[k].score);
    }
  }

  /** The score of one IQR verdict: +inf for a zero spread, otherwise the distance beyond the
      crossed fence in units of the spread. */
  lemma IqrScore(value: real, q1: real, q3: real, m: real, s: Score)
    requires q1 <= q3 && IqrVerdict(value, q1, q3, m) == Some(s)
    ensures s.Infinite? <==> q1 == q3
    ensures s.Finite? ==>
      s.value > 0.0
      && s.value * (q3 - q1) == (if value < LowerFence(q1, q3, m) then LowerFence(q1, q3, m) - value else value - UpperFence(q1, q3, m))
  {
  }

  /** With a non-negative multiplier the fences enclose the quartiles, so a sample between
      the quartiles is never reported. */
  lemma IqrInnerRangeNeverFlagged(det: AnomalyDetector, v: seq<real>, j: nat)
    requires |v| >= 4 && j < |v| && det.iqrMultiplier >= 0.0
    requires FirstQuartile(v) <= v[j] <= ThirdQuartile(v)
    ensures j !in Indices(IqrReport(det, v))
  {
    QuartilesOrdered(v);
    var q1, q3 := FirstQuartile(v), ThirdQuartile(v);
    IqrMembership(v, q1, q3, det.iqrMultiplier, IqrVerdicts(v, q1, q3, det.iqrMultiplier), IqrReport(det, v));
    FencesEnclose(q1, q3, det.iqrMultiplier);
    assert !(v[j] < LowerFence(q1, q3, det.iqrMultiplier) || v[j] > UpperFence(q1, q3, det.iqrMultiplier));
  }

  /** With a non-negative multiplier the fences lie outside the quartiles. */
  lemma FencesEnclose(q1: real, q3: real, k: real)
    requires q1 <= q3 && k >= 0.0
    ensures LowerFence(q1, q3, k) <= q1 && q3 <= UpperFence(q1, q3, k)
  {
    ProductPositive(k, q3 - q1);
  }

  /** The `detect_iqr` unit test: in 1, 2, 3, 2, 1, 100, 2, 1 the quartiles are 1 and 3, the upper
      fence is 6, and the sample 100 at index 5 is reported. */
  lemma IqrExample(v: seq<real>)
    requires |v| == 8 && v[0] == 1.0 && v[1] == 2.0 && v[2] == 3.0 && v[3] == 2.0
    requires v[4] == 1.0 && v[5] == 100.0 && v[6] == 2.0 && v[7] == 1.0
    ensures FirstQuartile(v) == 1.0 && ThirdQuartile(v) == 3.0
    ensures 5 in Indices(IqrReport(Default(), v))
  {
    TestDataSorted(v);
    IqrFlagsExactly(Default(), v, 1.0, 3.0, IqrReport(Default(), v));
  }

  lemma TestDataSorted(v: seq<real>)
    requires |v| == 8 && v[0] == 1.0 && v[1] == 2.0 && v[2] == 3.0 && v[3] == 2.0
    requires v[4] == 1.0 && v[5] == 100.0 && v[6] == 2.0 && v[7] == 1.0
    ensures SortedCopy(v)[2] == 1.0 && SortedCopy(v)[6] == 3.0
  {
    var s1 := SwapAt(v, 1, 4);
    var s2 := SwapAt(s1, 2, 7);
    var s3 := SwapAt(s2, 5, 7);
    var sorted := SwapAt(s3, 5, 6);
    assert sorted[0] == 1.0 && sorted[1] == 1.0 && sorted[2] == 1.0 && sorted[3] == 2.0;
    assert sorted[4] == 2.0 && sorted[5] == 2.0 && sorted[6] == 3.0 && sorted[7] == 100.0;
    EightAscending(sorted);
    SortedUnique(sorted, SortedCopy(v));
  }

  lemma EightAscending(s: seq<real>)
    requires |s| == 8 && s[0] <= s[1] <= s[2] <= s[3] <= s[4] <= s[5] <= s[6] <= s[7]
    ensures SortedBy(s, Identity)
  {
    forall i | 0 < i < 8 ensures s[i - 1] <= s[i] {
      assert i == 1 || i == 2 || i == 3 || i == 4 || i == 5 || i == 6 || i == 7;
    }
    AdjacentSorted(s);
  }

  /** The data of the `detect_zscore` unit test, 1, 2, 3, 2, 1, 100, 2, 1, has mean 14 and
      population variance 1057. With a square root that squares back, the 100 lies 86 from the
      mean, under three standard deviations (3 * sqrt(1057) > 97), so nothing is reported. */
  lemma ZScoreTestFlagsNothing(v: seq<real>, sqrt: real -> real)
    requires |v| == 8 && v[0] == 1.0 && v[1] == 2.0 && v[2] == 3.0 && v[3] == 2.0
    requires v[4] == 1.0 && v[5] == 100.0 && v[6] == 2.0 && v[7] == 1.0
    requires SqrtLike(sqrt) && sqrt(Variance(v)) * sqrt(Variance(v)) == Variance(v)
    ensures Mean(v) == 14.0 && Variance(v) == 1057.0
    ensures Indices(ZScoreReport(Default(), v, sqrt)) == {}
  {
    TestDataMoments(v);
    var sd := sqrt(Variance(v));
    SpreadExceeds(sd);
    var r := ZScoreReport(Default(), v, sqrt);
    ZScoreFlagsExactly(Default(), v, sqrt, r);
    forall j | 0 <= j < |v| ensures j !in Indices(r) {
      assert -13.0 <= v[j] - 14.0 <= 86.0;
      QuotientAtMostThree(v[j] - 14.0, sd);
    }
  }

  lemma TestDataMoments(v: seq<real>)
    requires |v| == 8 && v[0] == 1.0 && v[1] == 2.0 && v[2] == 3.0 && v[3] == 2.0
    requires v[4] == 1.0 && v[5] == 100.0 && v[6] == 2.0 && v[7] == 1.0
    ensures Mean(v) == 14.0 && Variance(v) == 1057.0
  {
    assert v[..8] == v;
    SumNext(v, 0); SumNext(v, 1); SumNext(v, 2); SumNext(v, 3);
    SumNext(v, 4); SumNext(v, 5); SumNext(v, 6); SumNext(v, 7);
    assert Sum(v) == 112.0;
    assert Mean(v) == 14.0;
    SumSqDevNext(v, 14.0, 0); SumSqDevNext(v, 14.0, 1); SumSqDevNext(v, 14.0, 2); SumSqDevNext(v, 14.0, 3);
    SumSqDevNext(v, 14.0, 4); SumSqDevNext(v, 14.0, 5); SumSqDevNext(v, 14.0, 6); SumSqDevNext(v, 14.0, 7);
    assert SumSqDev(v, 14.0) == 8456.0;
  }

  /** A non-negative square root of 1057 exceeds 86 / 3. */
  lemma SpreadExceeds(sd: real)
    requires sd >= 0.0 && sd * sd == 1057.0
    ensures 3.0 * sd > 86.0
  {
    var below, above := 3.0 * sd - 86.0, 3.0 * sd + 86.0;
    assert below * above == 9.0 * (sd * sd) - 7396.0 == 2117.0;
    PositiveFactor(below, above);
  }

  lemma PositiveFactor(q: real, p: real)
    requires p > 0.0 && q * p > 0.0
    ensures q > 0.0
  {
    if q <= 0.0 {
      ProductPositive(-q, p);
    }
  }

  lemma QuotientAtMostThree(x: real, sd: real)
    requires 3.0 * sd > 86.0 && -86.0 <= x <= 86.0
    ensures Abs(x / sd) <= 3.0
  {
    assert sd > 0.0;
    assert -3.0 * sd <= x <= 3.0 * sd;
  }

  /** Exchanging two samples keeps the same values. */
  function SwapAt(s: seq<real>, i: nat, j: nat): (r: seq<real>)
    requires i < j < |s|
    ensures |r| == |s| && r[i] == s[j] && r[j] == s[i]
    ensures forall k :: 0 <= k < |s| && k != i && k != j ==> r[k] == s[k]
    ensures multiset(r) == multiset(s)
  {
    s[i := s[j]][j := s[i]]
  }

  // ---------------------------------------------------------------- moving average

  /** The deviation of a sample from a mean, relative to the mean's magnitude (at least 1e-10). */
  function RelativeDeviation(value: real, mean: real): (d: real)
    ensures d >= 0.0
    ensures d == 0.0 <==> value == mean
  {
    Abs(value - mean) / Max(Abs(mean), 0.0000000001)
  }

  /** The moving-average test of one sample against the mean of its window: the relative
      deviation must exceed one half. */
  function MaVerdict(value: real, mean: real): Option<Score>
  {
    var relativeDev := RelativeDeviation(value, mean);
    if relativeDev > 0.5 then Some(Finite(relativeDev)) else None
  }

  function MaVerdicts(v: seq<real>, means: seq<real>, offset: nat): (r: seq<Option<Score>>)
    requires offset + |means| <= |v|
    ensures |r| == |means| && forall i {:trigger r[i]} :: 0 <= i < |means| ==> r[i] == MaVerdict(v[i + offset], means[i])
  {
    seq(|means|, i requires 0 <= i < |means| => MaVerdict(v[i + offset], means[i]))
  }

  /** What `detect_moving_average` reports: window position `i` tests sample `i + window/2`. */
  function MovingAverageReport(v: seq<real>, window: nat): seq<Anomaly>
    requires 0 < window <= |v|
  {
    Report(v, MaVerdicts(v, WindowMeans(v, window), window / 2), window / 2, Contextual)
  }

  /** The mean of the window that the moving-average filter compares sample `j` with: the
      `window` samples starting `window/2` before it. */
  function CentredMean(v: seq<real>, window: nat, j: nat): real
    requires 0 < window && window / 2 <= j && j - window / 2 + window <= |v|
  {
    Mean(v[j - window / 2..j - window / 2 + window])
  }

  /** `detect_moving_average`: the errors of `moving_average`; otherwise every sample that strays
      from the mean of the window starting `window/2` before it by more than half that mean is a
      contextual anomaly. The loop's bounds check never fires: the last compared sample is
      `len - window + window/2 < len`. */
  method DetectMovingAverage(det: AnomalyDetector, ts: TimeSeries, window: nat) returns (r: Result<seq<Anomaly>>)
    ensures window == 0 ==> r.Err? && r.error.InvalidParameter?
    ensures 0 < window && window > |ts.values| ==> r.Err? && r.error.InsufficientData?
    ensures 0 < window <= |ts.values| ==> r == Ok(MovingAverageReport(ts.values, window))
  {
    var ma := MovingAverage(ts, window);
    if ma.Err? {
      return Err(ma.error);
    }
    var v, means := ts.values, ma.value;
    var offset := window / 2;
    var anomalies := MovingAverageScan(v, means, offset);
    return Ok(anomalies);
  }

  /** The loop of `detect_moving_average` over the window positions. */
  method MovingAverageScan(v: seq<real>, means: seq<real>, offset: nat) returns (anomalies: seq<Anomaly>)
    requires offset + |means| <= |v|
    ensures anomalies == Report(v, MaVerdicts(v, means, offset), offset, Contextual)
  {
    ghost var verdicts := MaVerdicts(v, means, offset);
    anomalies := [];
    for i := 0 to |means|
      invariant anomalies == Report(v, verdicts[..i], offset, Contextual)
    {
      var actualIdx := i + offset;
      if actualIdx >= |v| {
        assert false;
        break;
      }
      ReportStep(v, verdicts, offset, Contextual, i);
      assert verdicts[i] == MaVerdict(v[actualIdx], means[i]);
      var deviation := Abs(v[actualIdx] - means[i]);
      var relativeDev := deviation / Max(Abs(means[i]), 0.0000000001);
      if relativeDev > 0.5 {
        anomalies := anomalies + [Anomaly(actualIdx, v[actualIdx], Contextual, Finite(relativeDev))];
      }
    }
    assert verdicts[..|means|] == verdicts;
  }

  /** The samples the moving-average filter tests are those from `window/2` to
      `len - window + window/2`; one of them is reported exactly when its deviation from its
      window's mean, relative to that mean's magnitude, exceeds one half. */
  lemma MovingAverageFlagsExactly(v: seq<real>, window: nat, r: seq<Anomaly>)
    requires 0 < window <= |v| && r == MovingAverageReport(v, window)
    ensures forall j :: window / 2 <= j <= |v| - window + window / 2 ==>
      (j in Indices(r) <==> RelativeDeviation(v[j], CentredMean(v, window, j)) > 0.5)
  {
    CentredFlags(v, window, WindowMeans(v, window), window / 2, r);
  }

  /** Membership by centred means, with the window's half-width as a plain number. */
  lemma CentredFlags(v: seq<real>, window: nat, means: seq<real>, h: nat, r: seq<Anomaly>)
    requires 0 < window <= |v| && h == window / 2 && means == WindowMeans(v, window)
    requires r == Report(v, MaVerdicts(v, means, h), h, Contextual)
    ensures forall j :: h <= j <= |v| - window + h ==>
      (j in Indices(r) <==> RelativeDeviation(v[j], CentredMean(v, window, j)) > 0.5)
  {
    MaFlags(v, means, h, r);
    CentredMeansAreMovingAverage(v, window, means);
    CombineFlags(v, window, means, h, r);
  }

  /** Membership by centred means, from membership by any means that agree with them. */
  lemma CombineFlags(v: seq<real>, window: nat, means: seq<real>, h: nat, r: seq<Anomaly>)
    requires 0 < window <= |v| && h == window / 2 && |means| == |v| - window + 1
    requires forall j {:trigger CentredMean(v, window, j)} :: window / 2 <= j <= |v| - window + window / 2 ==>
      means[j - window / 2] == CentredMean(v, window, j)
    requires forall p :: h <= p < h + |means| ==>
      (p in Indices(r) <==> RelativeDeviation(v[p], means[p - h]) > 0.5)
    ensures forall j :: h <= j <= |v| - window + h ==>
      (j in Indices(r) <==> RelativeDeviation(v[j], CentredMean(v, window, j)) > 0.5)
  {
  }

  /** Every moving-average report is a contextual anomaly at a compared position, carrying that
      sample, scored by its relative deviation from its window's mean, which exceeds one half. */
  lemma MovingAverageScores(v: seq<real>, window: nat, r: seq<Anomaly>)
    requires 0 < window <= |v| && r == MovingAverageReport(v, window)
    ensures forall k :: 0 <= k < |r| ==>
      window / 2 <= r[k].index <= |v| - window + window / 2
      && r[k].value == v[r[k].index] && r[k].anomalyType == Contextual
      && r[k].score == Finite(RelativeDeviation(r[k].value, CentredMean(v, window, r[k].index)))
      && r[k].score.value > 0.5
  {
    CentredScores(v, window, WindowMeans(v, window), window / 2, r);
  }

  /** Entries by centred means, with the window's half-width as a plain number. */
  lemma CentredScores(v: seq<real>, window: nat, means: seq<real>, h: nat, r: seq<Anomaly>)
    requires 0 < window <= |v| && h == window / 2 && means == WindowMeans(v, window)
    requires r == Report(v, MaVerdicts(v, means, h), h, Contextual)
    ensures forall k :: 0 <= k < |r| ==>
      h <= r[k].index <= |v| - window + h
      && r[k].value == v[r[k].index] && r[k].anomalyType == Contextual
      && r[k].score == Finite(RelativeDeviation(r[k].value, CentredMean(v, window, r[k].index)))
      && r[k].score.value > 0.5
  {
    MaScores(v, means, h, r);
    CentredMeansAreMovingAverage(v, window, means);
    CombineScores(v, window, means, h, r);
  }

  /** Entries by centred means, from entries by any means that agree with them. */
  lemma CombineScores(v: seq<real>, window: nat, means: seq<real>, h: nat, r: seq<Anomaly>)
    requires 0 < window <= |v| && h == window / 2 && |means| == |v| - window + 1
    requires forall j {:trigger CentredMean(v, window, j)} :: window / 2 <= j <= |v| - window + window / 2 ==>
      means[j - window / 2] == CentredMean(v, window, j)
    requires forall k :: 0 <= k < |r| ==>
      h <= r[k].index < h + |means|
      && r[k].value == v[r[k].index] && r[k].anomalyType == Contextual
      && r[k].score == Finite(RelativeDeviation(r[k].value, means[r[k].index - h]))
      && r[k].score.value > 0.5
    ensures forall k :: 0 <= k < |r| ==>
      h <= r[k].index <= |v| - window + h
      && r[k].value == v[r[k].index] && r[k].anomalyType == Contextual
      && r[k].score == Finite(RelativeDeviation(r[k].value, CentredMean(v, window, r[k].index)))
      && r[k].score.value > 0.5
  {
  }

  /** The moving-average entry a sample is compared with is its centred window's mean. */
  lemma CentredMeansAreMovingAverage(v: seq<real>, window: nat, means: seq<real>)
    requires 0 < window <= |v| && means == WindowMeans(v, window)
    ensures forall j {:trigger CentredMean(v, window, j)} :: window / 2 <= j <= |v| - window + window / 2 ==>
      means[j - window / 2] == CentredMean(v, window, j)
  {
    forall j | window / 2 <= j <= |v| - window + window / 2
      ensures means[j - window / 2] == CentredMean(v, window, j)
    {
      var i := j - window / 2;
      assert means[i] == Mean(v[i..i + window]);
    }
  }

  /** Membership in a moving-average report, for any sequence of means. */
  lemma MaFlags(v: seq<real>, means: seq<real>, offset: nat, r: seq<Anomaly>)
    requires offset + |means| <= |v| && r == Report(v, MaVerdicts(v, means, offset), offset, Contextual)
    ensures forall p :: offset <= p < offset + |means| ==>
      (p in Indices(r) <==> RelativeDeviation(v[p], means[p - offset]) > 0.5)
  {
    var verdicts := MaVerdicts(v, means, offset);
    ReportComplete(v, verdicts, offset, Contextual, r);
    forall p | offset <= p < offset + |means|
      ensures p in Indices(r) <==> RelativeDeviation(v[p], means[p - offset]) > 0.5
    {
      var i := p - offset;
      assert i + offset == p;
      assert verdicts[i] == MaVerdict(v[p], means[i]);
    }
  }

  /** The entries of a moving-average report, for any sequence of means. */
  lemma MaScores(v: seq<real>, means: seq<real>, offset: nat, r: seq<Anomaly>)
    requires offset + |means| <= |v| && r == Report(v, MaVerdicts(v, means, offset), offset, Contextual)
    ensures forall k :: 0 <= k < |r| ==>
      offset <= r[k].index < offset + |means|
      && r[k].value == v[r[k].index] && r[k].anomalyType == Contextual
      && r[k].score == Finite(RelativeDeviation(r[k].value, means[r[k].index - offset]))
      && r[k].score.value > 0.5
  {
    var verdicts := MaVerdicts(v, means, offset);
    ReportEntries(v, verdicts, offset, Contextual, r);
    forall k | 0 <= k < |r|
      ensures r[k].score == Finite(RelativeDeviation(r[k].value, means[r[k].index - offset]))
      ensures r[k].score.value > 0.5
    {
      var i := r[k].index - offset;
      assert i + offset == r[k].index;
      assert verdicts[i] == MaVerdict(v[r[k].index], means[i]);
    }
  }

  // ---------------------------------------------------------------- ensemble

  /** `find(|a| a.index == idx).map(|a| a.score).unwrap_or(0.0)`: the first report of `idx`. */
  function ScoreOf(r: seq<Anomaly>, idx: nat): Score
  {
    if |r| == 0 then Finite(0.0)
    else if r[0].index == idx then r[0].score
    else ScoreOf(r[1..], idx)
  }

  /** The score a filter gave a position: the score of its report, or 0 when it did not report it. */
  lemma {:induction false} ScoreOfReported(r: seq<Anomaly>, idx: nat)
    requires IncreasingIndices(r)
    ensures idx !in Indices(r) ==> ScoreOf(r, idx) == Finite(0.0)
    ensures forall k :: 0 <= k < |r| && r[k].index == idx ==> ScoreOf(r, idx) == r[k].score
  {
    if |r| > 0 {
      var tail := r[1..];
      assert IncreasingIndices(tail) by {
        forall i, j | 0 <= i < j < |tail| ensures tail[i].index < tail[j].index {
          assert tail[i] == r[i + 1] && tail[j] == r[j + 1];
        }
      }
      ScoreOfReported(tail, idx);
      if idx !in Indices(r) {
        assert r[0].index != idx;
        assert idx !in Indices(tail);
      }
      forall k | 0 <= k < |r| && r[k].index == idx ensures ScoreOf(r, idx) == r[k].score {
        if k > 0 {
          assert r[0].index < r[k].index;
          assert tail[k - 1] == r[k];
        }
      }
    }
  }

  /** `(zscore_score + iqr_score) / 2.0` in f64: +inf if either is +inf. */
  function MeanScore(a: Score, b: Score): (s: Score)
    ensures s.Infinite? <==> a.Infinite? || b.Infinite?
    ensures a.Finite? && b.Finite? ==> s.value * 2.0 == a.value + b.value
  {
    if a.Infinite? || b.Infinite? then Infinite else Finite((a.value + b.value) / 2.0)
  }

  /** `dedup` of an ascending vector, in place: the first `len` slots end up holding each
      element once, in strictly increasing order. */
  method Dedup(a: array<nat>) returns (len: nat)
    requires forall i, j :: 0 <= i < j < a.Length ==> a[i] <= a[j]
    modifies a
    ensures len <= a.Length
    ensures forall i, j :: 0 <= i < j < len ==> a[i] < a[j]
    ensures forall x :: x in a[..len] <==> x in old(a[..])
  {
    if a.Length == 0 {
      return 0;
    }
    ghost var s := a[..];
    len := 1;
    var i := 1;
    assert a[..1] == s[..1];
    while i < a.Length
      invariant 1 <= len <= i <= a.Length
      invariant forall k :: i <= k < a.Length ==> a[k] == s[k]
      invariant forall p, q :: 0 <= p < q < len ==> a[p] < a[q]
      invariant a[len - 1] == s[i - 1]
      invariant forall x :: x in a[..len] <==> x in s[..i]
    {
      assert s[i - 1] <= s[i];
      len := DedupStep(a, s, len, i);
      i := i + 1;
    }
    assert s[..a.Length] == s;
  }

  /** One step of `dedup`: `a[i]` is kept, behind the kept prefix `a[..len]`, unless it repeats the
      last kept value. */
  method DedupStep(a: array<nat>, ghost s: seq<nat>, len: nat, i: nat) returns (next: nat)
    requires 1 <= len <= i < a.Length == |s| && s[i - 1] <= s[i]
    requires forall k :: i <= k < a.Length ==> a[k] == s[k]
    requires forall p, q :: 0 <= p < q < len ==> a[p] < a[q]
    requires a[len - 1] == s[i - 1]
    requires forall x :: x in a[..len] <==> x in s[..i]
    modifies a
    ensures 1 <= next <= i + 1
    ensures forall k :: i + 1 <= k < a.Length ==> a[k] == s[k]
    ensures forall p, q :: 0 <= p < q < next ==> a[p] < a[q]
    ensures a[next - 1] == s[i]
    ensures forall x :: x in a[..next] <==> x in s[..i + 1]
  {
    ghost var kept := a[..len];
    assert s[..i + 1] == s[..i] + [s[i]];
    next := len;
    if a[i] != a[len - 1] {
      a[len] := a[i];
      next := len + 1;
      assert a[..next] == kept + [s[i]];
    }
  }

  /** The positions an anomaly list reports, in its order. */
  function IndexList(r: seq<Anomaly>): (l: seq<nat>)
    ensures |l| == |r| && forall k {:trigger l[k]} :: 0 <= k < |r| ==> l[k] == r[k].index
  {
    if |r| == 0 then [] else [r[0].index] + IndexList(r[1..])
  }

  /** `detect_ensemble`: the errors of both filters (fewer than four samples); otherwise one point
      anomaly per position either filter reports, in increasing order without repeats, scored
      by the mean of the two filters' scores, a filter that did not report it counting 0. */
  method DetectEnsemble(det: AnomalyDetector, ts: TimeSeries, sqrt: real -> real) returns (r: Result<seq<Anomaly>>)
    requires SqrtLike(sqrt)
    ensures |ts.values| < 4 ==> r.Err? && r.error.InsufficientData?
    ensures |ts.values| >= 4 ==> r.Ok?
    ensures r.Ok? ==> |ts.values| >= 4 && IncreasingIndices(r.value)
    ensures r.Ok? ==>
      (|ts.values| >= 4
       && Indices(r.value) == Indices(ZScoreReport(det, ts.values, sqrt)) + Indices(IqrReport(det, ts.values)))
    ensures r.Ok? ==>
      (|ts.values| >= 4
       && forall k :: 0 <= k < |r.value| ==>
            r.value[k].index < |ts.values| && r.value[k].value == ts.values[r.value[k].index]
            && r.value[k].anomalyType == Point
            && r.value[k].score == MeanScore(ScoreOf(ZScoreReport(det, ts.values, sqrt), r.value[k].index),
                                             ScoreOf(IqrReport(det, ts.values), r.value[k].index)))
  {
    var zs := DetectZScore(det, ts, sqrt);
    if zs.Err? {
      return Err(zs.error);
    }
    var iqrs := DetectIqr(det, ts);
    if iqrs.Err? {
      return Err(iqrs.error);
    }
    var v, z, q := ts.values, zs.value, iqrs.value;
    var positions := SortedPositions(z, q);
    IndicesBelow(z, |v|);
    IndicesBelow(q, |v|);
    assert forall j :: 0 <= j < |positions| ==> positions[j] < |v| by {
      forall j | 0 <= j < |positions| ensures positions[j] < |v| {
        assert positions[j] in positions;
      }
    }
    var anomalies := EnsembleScores(v, z, q, positions);
    PositionsReported(anomalies, positions, Indices(z) + Indices(q));
    return Ok(anomalies);
  }

  /** The indices of both filters' anomalies, chained, sorted and deduplicated: each reported
      position once, in increasing order. */
  method SortedPositions(z: seq<Anomaly>, q: seq<Anomaly>) returns (positions: seq<nat>)
    ensures forall i, j :: 0 <= i < j < |positions| ==> positions[i] < positions[j]
    ensures forall x :: x in positions <==> x in Indices(z) + Indices(q)
  {
    var merged := IndexList(z) + IndexList(q);
    var all := SortedArray(merged);
    var count := Dedup(all);
    positions := all[..count];
    MergedMembers(z, q, merged, positions);
  }

  /** A fresh array holding `s` in ascending order. */
  method SortedArray(s: seq<nat>) returns (all: array<nat>)
    ensures fresh(all)
    ensures forall i, j :: 0 <= i < j < all.Length ==> all[i] <= all[j]
    ensures forall x :: x in all[..] <==> x in s
  {
    all := new nat[|s|](k requires 0 <= k < |s| => s[k]);
    assert all[..] == s;
    SortBy(all, IndexKey);
    SameMembers(all[..], s);
    SortedByIndex(all[..]);
  }

  lemma SameMembers(a: seq<nat>, b: seq<nat>)
    requires multiset(a) == multiset(b)
    ensures forall x :: x in a <==> x in b
  {
    forall x ensures x in a <==> x in b {
      assert x in a <==> x in multiset(a);
      assert x in b <==> x in multiset(b);
    }
  }

  lemma SortedByIndex(s: seq<nat>)
    requires SortedBy(s, IndexKey)
    ensures forall i, j :: 0 <= i < j < |s| ==> s[i] <= s[j]
  {
    forall i, j | 0 <= i < j < |s| ensures s[i] <= s[j] {
      assert IndexKey(s[i]) <= IndexKey(s[j]);
    }
  }

  /** The positions chained from both lists are exactly those either list reports. */
  lemma MergedMembers(z: seq<Anomaly>, q: seq<Anomaly>, merged: seq<nat>, kept: seq<nat>)
    requires merged == IndexList(z) + IndexList(q)
    requires forall x :: x in kept <==> x in merged
    ensures forall x :: x in kept <==> x in Indices(z) + Indices(q)
  {
    var lz, lq := IndexList(z), IndexList(q);
    forall x | x in Indices(z) + Indices(q) ensures x in merged {
      if x in Indices(z) {
        var k :| 0 <= k < |z| && z[k].index == x;
        assert merged[k] == lz[k] == x;
      } else {
        var k :| 0 <= k < |q| && q[k].index == x;
        assert merged[|z| + k] == lq[k] == x;
      }
    }
    forall x | x in merged ensures x in Indices(z) + Indices(q) {
      var k :| 0 <= k < |merged| && merged[k] == x;
      if k < |z| {
        assert lz[k] == x;
      } else {
        assert lq[k - |z|] == x;
      }
    }
  }

  /** Anomalies built one per position of an increasing list report exactly those positions,
      in increasing order. */
  lemma PositionsReported(anomalies: seq<Anomaly>, positions: seq<nat>, expected: set<nat>)
    requires |anomalies| == |positions|
    requires forall j :: 0 <= j < |positions| ==> anomalies[j].index == positions[j]
    requires forall i, j :: 0 <= i < j < |positions| ==> positions[i] < positions[j]
    requires forall x :: x in positions <==> x in expected
    ensures IncreasingIndices(anomalies)
    ensures Indices(anomalies) == expected
  {
    forall x | x in expected ensures x in Indices(anomalies) {
      var j :| 0 <= j < |positions| && positions[j] == x;
      assert anomalies[j].index == x;
    }
    forall x | x in Indices(anomalies) ensures x in expected {
      var j :| 0 <= j < |anomalies| && anomalies[j].index == x;
      assert positions[j] == x;
    }
  }

  /** The loop of `detect_ensemble` over the kept positions. */
  method EnsembleScores(v: seq<real>, z: seq<Anomaly>, q: seq<Anomaly>, positions: seq<nat>) returns (anomalies: seq<Anomaly>)
    requires forall j :: 0 <= j < |positions| ==> positions[j] < |v|
    ensures |anomalies| == |positions|
    ensures forall j {:trigger anomalies[j]} :: 0 <= j < |positions| ==>
      anomalies[j] == Anomaly(positions[j], v[positions[j]], Point,
                              MeanScore(ScoreOf(z, positions[j]), ScoreOf(q, positions[j])))
  {
    anomalies := [];
    for k := 0 to |positions|
      invariant |anomalies| == k
      invariant forall j {:trigger anomalies[j]} :: 0 <= j < k ==>
        anomalies[j] == Anomaly(positions[j], v[positions[j]], Point,
                                MeanScore(ScoreOf(z, positions[j]), ScoreOf(q, positions[j])))
    {
      var idx := positions[k];
      var value := v[idx];
      var zscoreScore := ScoreOf(z, idx);
      var iqrScore := ScoreOf(q, idx);
      var score := MeanScore(zscoreScore, iqrScore);
      anomalies := anomalies + [Anomaly(idx, value, Point, score)];
    }
  }
}
