/** The iterator reductions the library applies to `&[f64]` slices (`.iter().sum()`,
    `min_by`/`max_by` under `partial_cmp`, the population variance) over `real`. */
module Numeric {

  function Abs(x: real): (r: real)
    ensures r >= 0.0 && (r == x || r == -x)
  {
    if x < 0.0 then -x else x
  }

  function Max(a: real, b: real): (r: real)
    ensures r >= a && r >= b && (r == a || r == b)
  {
    if a >= b then a else b
  }

  /** `iter().sum()`, accumulated from the front. */
  function Sum(s: seq<real>): real
  {
    if |s| == 0 then 0.0 else Sum(s[..|s| - 1]) + s[|s| - 1]
  }

  /** Sum of a prefix one element longer. */
  lemma SumNext(s: seq<real>, i: nat)
    requires i < |s|
    ensures Sum(s[..i + 1]) == Sum(s[..i]) + s[i]
  {
    assert s[..i + 1][..i] == s[..i];
  }

  /** `sum / len as f64` for a non-empty slice. */
  function Mean(s: seq<real>): real
    requires |s| > 0
  {
    Sum(s) / |s| as real
  }

  /** Sum of squared deviations from `m`: `iter().map(|x| (x - m).powi(2)).sum()`. */
  function SumSqDev(s: seq<real>, m: real): (r: real)
    ensures r >= 0.0
  {
    if |s| == 0 then 0.0 else SumSqDev(s[..|s| - 1], m) + Square(s[|s| - 1] - m)
  }

  /** Sum of squared deviations over a prefix one element longer. */
  lemma SumSqDevNext(s: seq<real>, m: real, i: nat)
    requires i < |s|
    ensures SumSqDev(s[..i + 1], m) == SumSqDev(s[..i], m) + Square(s[i] - m)
  {
    assert s[..i + 1][..i] == s[..i];
  }

  /** `x.powi(2)`. */
  function Square(x: real): (r: real)
    ensures r >= 0.0 && (r == 0.0 <==> x == 0.0)
  {
    if x >= 0.0 then
      ProductPositive(x, x);
      x * x
    else
      ProductPositive(-x, -x);
      assert (-x) * (-x) == x * x;
      x * x
  }

  lemma ProductPositive(a: real, b: real)
    requires a >= 0.0 && b >= 0.0
    ensures a * b >= 0.0 && (a * b == 0.0 <==> a == 0.0 || b == 0.0)
  {
    if a > 0.0 && b > 0.0 {
      assert a * b > 0.0;
    }
  }

  /** Population variance (divides by the count, not count - 1). */
  function Variance(s: seq<real>): (r: real)
    requires |s| > 0
    ensures r >= 0.0
  {
    SumSqDev(s, Mean(s)) / |s| as real
  }

  /** The smallest element, as `min_by(partial_cmp)` finds it. */
  function MinOf(s: seq<real>): (r: real)
    requires |s| > 0
    ensures forall i :: 0 <= i < |s| ==> r <= s[i]
    ensures exists i :: 0 <= i < |s| && s[i] == r
  {
    if |s| == 1 then s[0]
    else
      var m := MinOf(s[..|s| - 1]);
      assert forall i :: 0 <= i < |s| - 1 ==> s[..|s| - 1][i] == s[i];
      if s[|s| - 1] < m then s[|s| - 1] else m
  }

  /** The largest element, as `max_by(partial_cmp)` finds it. */
  function MaxOf(s: seq<real>): (r: real)
    requires |s| > 0
    ensures forall i :: 0 <= i < |s| ==> s[i] <= r
    ensures exists i :: 0 <= i < |s| && s[i] == r
  {
    if |s| == 1 then s[0]
    else
      var m := MaxOf(s[..|s| - 1]);
      assert forall i :: 0 <= i < |s| - 1 ==> s[..|s| - 1][i] == s[i];
      if s[|s| - 1] > m then s[|s| - 1] else m
  }

  /** A stand-in for `f64::sqrt`: non-negative on non-negative arguments and zero exactly at zero.
      Nothing else about the square root is relied on. */
  ghost predicate SqrtLike(sqrt: real -> real)
  {
    forall x :: 0.0 <= x ==> 0.0 <= sqrt(x) && (sqrt(x) == 0.0 <==> x == 0.0)
  }

  /** A lower bound of every element bounds the sum by count * bound. */
  lemma {:induction false} SumAtLeast(s: seq<real>, c: real)
    requires forall i :: 0 <= i < |s| ==> c <= s[i]
    ensures |s| as real * c <= Sum(s)
  {
    if |s| > 0 {
      SumAtLeast(s[..|s| - 1], c);
      assert (|s| - 1) as real * c + c == |s| as real * c;
    }
  }

  /** An upper bound of every element bounds the sum by count * bound. */
  lemma {:induction false} SumAtMost(s: seq<real>, c: real)
    requires forall i :: 0 <= i < |s| ==> s[i] <= c
    ensures Sum(s) <= |s| as real * c
  {
    if |s| > 0 {
      SumAtMost(s[..|s| - 1], c);
      assert (|s| - 1) as real * c + c == |s| as real * c;
    }
  }

  /** The mean of a non-empty slice lies between its least and largest elements. */
  lemma MeanBetweenMinMax(s: seq<real>)
    requires |s| > 0
    ensures MinOf(s) <= Mean(s) <= MaxOf(s)
  {
    MeanAtLeast(s, MinOf(s));
    MeanAtMost(s, MaxOf(s));
  }

  lemma MeanAtLeast(s: seq<real>, c: real)
    requires |s| > 0 && forall i :: 0 <= i < |s| ==> c <= s[i]
    ensures c <= Mean(s)
  {
    SumAtLeast(s, c);
    BoundOverCount(c, Sum(s), |s| as real);
  }

  lemma MeanAtMost(s: seq<real>, c: real)
    requires |s| > 0 && forall i :: 0 <= i < |s| ==> s[i] <= c
    ensures Mean(s) <= c
  {
    SumAtMost(s, c);
    BoundUnderCount(Sum(s), c, |s| as real);
  }

  lemma BoundOverCount(a: real, b: real, n: real)
    requires n > 0.0 && n * a <= b
    ensures a <= b / n
  {
  }

  lemma BoundUnderCount(b: real, a: real, n: real)
    requires n > 0.0 && b <= n * a
    ensures b / n <= a
  {
  }

  /** A sum of squared deviations is zero only when every element equals the centre. */
  lemma {:induction false} SumSqDevZero(s: seq<real>, m: real)
    requires SumSqDev(s, m) == 0.0
    ensures forall i :: 0 <= i < |s| ==> s[i] == m
  {
    if |s| > 0 {
      var init := s[..|s| - 1];
      assert SumSqDev(init, m) == 0.0 && Square(s[|s| - 1] - m) == 0.0;
      SumSqDevZero(init, m);
      assert forall i :: 0 <= i < |s| - 1 ==> s[i] == init[i];
    }
  }

  /** The sum of `n` copies of `c` is `n * c`. */
  lemma {:induction false} SumConstant(s: seq<real>, c: real)
    requires forall i :: 0 <= i < |s| ==> s[i] == c
    ensures Sum(s) == |s| as real * c
  {
    if |s| > 0 {
      SumConstant(s[..|s| - 1], c);
    }
  }

  /** The sum of a concatenation. */
  lemma {:induction false} SumAppend(a: seq<real>, b: seq<real>)
    ensures Sum(a + b) == Sum(a) + Sum(b)
  {
    if |b| > 0 {
      assert (a + b)[..|a + b| - 1] == a + b[..|b| - 1];
      SumAppend(a, b[..|b| - 1]);
    } else {
      assert a + b == a;
    }
  }

  /** `c` subtracted from every element. */
  function Shifted(s: seq<real>, c: real): (r: seq<real>)
    ensures |r| == |s| && forall i :: 0 <= i < |s| ==> r[i] == s[i] - c
  {
    seq(|s|, i requires 0 <= i < |s| => s[i] - c)
  }

  /** Every element divided by a non-zero `c`. */
  function Scaled(s: seq<real>, c: real): (r: seq<real>)
    requires c != 0.0
    ensures |r| == |s| && forall i :: 0 <= i < |s| ==> r[i] * c == s[i]
  {
    seq(|s|, i requires 0 <= i < |s| => s[i] / c)
  }

  lemma {:induction false} SumShifted(s: seq<real>, c: real)
    ensures Sum(Shifted(s, c)) == Sum(s) - |s| as real * c
  {
    if |s| > 0 {
      var init := s[..|s| - 1];
      assert Shifted(s, c)[..|s| - 1] == Shifted(init, c);
      SumShifted(init, c);
    }
  }

  lemma {:induction false} SumScaled(s: seq<real>, c: real)
    requires c != 0.0
    ensures Sum(Scaled(s, c)) * c == Sum(s)
  {
    if |s| > 0 {
      var init := s[..|s| - 1];
      var a, ai := Scaled(s, c), Scaled(init, c);
      assert a[..|s| - 1] == ai;
      SumScaled(init, c);
      assert Sum(a) == Sum(ai) + a[|s| - 1];
      assert a[|s| - 1] * c == s[|s| - 1];
      assert Sum(a) * c == Sum(ai) * c + a[|s| - 1] * c;
    }
  }

  /** Subtracting the mean leaves a slice that sums to zero. */
  lemma CenteredSumsToZero(s: seq<real>)
    requires |s| > 0
    ensures Sum(Shifted(s, Mean(s))) == 0.0
  {
    SumShifted(s, Mean(s));
  }

  /** Dividing by a non-zero mean leaves a slice whose mean is one. */
  lemma RescaledMeanIsOne(s: seq<real>)
    requires |s| > 0 && Mean(s) != 0.0
    ensures Mean(Scaled(s, Mean(s))) == 1.0
  {
    var m, n := Mean(s), |s| as real;
    var t := Scaled(s, m);
    SumScaled(s, m);
    assert Sum(s) == m * n;
    CancelFactor(Sum(t), n, m);
    assert Mean(t) == Sum(t) / n;
  }

  lemma CancelFactor(a: real, b: real, m: real)
    requires m != 0.0 && a * m == m * b
    ensures a == b
  {
  }
}
