/**
 Rolling statistics over the RPS values of the window: the arithmetic mean and
 the sample variance (denominator n - 1) about a given mean.

 All results hold in exact real arithmetic; float64 rounding is not modelled.
 */
module RollingStats {

  /** Sum of the values, accumulated from the oldest to the newest. */
  function Sum(s: seq<real>): real
  {
    if s == [] then 0.0 else Sum(s[..|s| - 1]) + s[|s| - 1]
  }

  /** Arithmetic mean; 0 for the empty sequence, by convention. */
  function Mean(s: seq<real>): real
  {
    if |s| == 0 then 0.0 else Sum(s) / |s| as real
  }

  /** Sum of the squared deviations of the values from `c`. */
  function SqDevSum(s: seq<real>, c: real): (r: real)
    ensures r >= 0.0
  {
    if s == [] then 0.0
    else
      var d := s[|s| - 1] - c;
      SqDevSum(s[..|s| - 1], c) + d * d
  }

  /** Sample variance about `c`: 0 for fewer than two values. */
  function VarianceAbout(s: seq<real>, c: real): (r: real)
    ensures r >= 0.0
    ensures |s| >= 2 ==> r * (|s| - 1) as real == SqDevSum(s, c)
  {
    if |s| <= 1 then 0.0 else SqDevSum(s, c) / (|s| - 1) as real
  }

  /** Sample variance about the sequence's own mean. */
  function Variance(s: seq<real>): real
  {
    VarianceAbout(s, Mean(s))
  }

  /** Bounds on every value bound the sum. */
  lemma {:induction false} SumBounds(s: seq<real>, lo: real, hi: real)
    requires forall i :: 0 <= i < |s| ==> lo <= s[i] <= hi
    ensures |s| as real * lo <= Sum(s) <= |s| as real * hi
  {
    if s != [] {
      var p := s[..|s| - 1];
      assert forall i :: 0 <= i < |p| ==> p[i] == s[i];
      SumBounds(p, lo, hi);
      var k := |p| as real;
      assert |s| as real * lo == k * lo + lo;
      assert |s| as real * hi == k * hi + hi;
    }
  }

  /** The mean of a non-empty window lies between its smallest and largest values. */
  lemma MeanBounds(s: seq<real>, lo: real, hi: real)
    requires |s| > 0
    requires forall i :: 0 <= i < |s| ==> lo <= s[i] <= hi
    ensures lo <= Mean(s) <= hi
  {
    SumBounds(s, lo, hi);
    var n := |s| as real;
    assert Mean(s) * n == Sum(s);
    assert (Mean(s) - lo) * n >= 0.0;
    assert (hi - Mean(s)) * n >= 0.0;
  }

  /** No squared deviation from a value that every element equals. */
  lemma {:induction false} SqDevSumAtConstant(s: seq<real>, c: real)
    requires forall i :: 0 <= i < |s| ==> s[i] == c
    ensures SqDevSum(s, c) == 0.0
  {
    if s != [] {
      var p := s[..|s| - 1];
      assert forall i :: 0 <= i < |p| ==> p[i] == s[i];
      SqDevSumAtConstant(p, c);
    }
  }

  /** A window whose values are all equal has that value as mean and variance 0. */
  lemma ConstantWindow(s: seq<real>, c: real)
    requires |s| > 0
    requires forall i :: 0 <= i < |s| ==> s[i] == c
    ensures Mean(s) == c
    ensures Variance(s) == 0.0
  {
    MeanBounds(s, c, c);
    SqDevSumAtConstant(s, c);
  }

  /** Sum of the deviations of the values from `c`. */
  function DevSum(t: seq<real>, c: real): real
  {
    if t == [] then 0.0 else DevSum(t[..|t| - 1], c) + (t[|t| - 1] - c)
  }

  /** The deviations from `c` add up to the sum less |t| times `c`. */
  lemma {:induction false} DevSumIsSumLessCount(t: seq<real>, c: real)
    ensures DevSum(t, c) == Sum(t) - |t| as real * c
  {
    if t != [] {
      DevSumIsSumLessCount(t[..|t| - 1], c);
      assert |t| as real * c == (|t| - 1) as real * c + c;
    }
  }

  /**
   Cauchy-Schwarz for the deviations from `c`: the squared sum of deviations is
   at most |t| times the sum of squared deviations.
   */
  lemma {:induction false} TotalDeviationBound(t: seq<real>, c: real)
    ensures SquareAtMost(DevSum(t, c), |t| as real, SqDevSum(t, c))
  {
    if t == [] {
      assert DevSum(t, c) == 0.0 && |t| as real == 0.0;
    } else {
      TotalDeviationBound(t[..|t| - 1], c);
      DeviationsSnoc(t, c);
      CauchySchwarzStep(|t[..|t| - 1]| as real, DevSum(t[..|t| - 1], c), t[|t| - 1] - c, SqDevSum(t[..|t| - 1], c),
                        DevSum(t, c), |t| as real, SqDevSum(t, c));
    }
  }

  /** Both deviation sums, one step of their recursion. */
  lemma DeviationsSnoc(t: seq<real>, c: real)
    requires t != []
    ensures |t| as real == |t[..|t| - 1]| as real + 1.0
    ensures DevSum(t, c) == DevSum(t[..|t| - 1], c) + (t[|t| - 1] - c)
    ensures SqDevSum(t, c) == SqDevSum(t[..|t| - 1], c) + (t[|t| - 1] - c) * (t[|t| - 1] - c)
  {
  }

  /** d * d <= n * t, as one fact. */
  predicate SquareAtMost(d: real, n: real, t: real)
  {
    d * d <= n * t
  }

  /** A real square is never negative. */
  lemma SquareNonNegative(x: real)
    ensures x * x >= 0.0
  {
    if x < 0.0 {
      assert x * x == (-x) * (-x);
    }
  }

  /** The inductive step of TotalDeviationBound, as an inequality over reals. */
  lemma CauchySchwarzStep(k: real, S: real, a: real, Q: real, D: real, n: real, T: real)
    requires k >= 0.0 && Q >= 0.0
    requires SquareAtMost(S, k, Q)
    requires k == 0.0 ==> S == 0.0
    requires D == S + a && n == k + 1.0 && T == Q + a * a
    ensures SquareAtMost(D, n, T)
  {
    if k > 0.0 {
      CrossTermBound(k, S, a, Q);
    }
    assert (S + a) * (S + a) == S * S + 2.0 * S * a + a * a;
    assert (k + 1.0) * (Q + a * a) == k * Q + Q + k * a * a + a * a;
  }

  /** The cross term of the step: 2 * S * a <= Q + k * a * a. */
  lemma CrossTermBound(k: real, S: real, a: real, Q: real)
    requires k > 0.0
    requires SquareAtMost(S, k, Q)
    ensures 2.0 * S * a <= Q + k * a * a
  {
    var e := S - k * a;
    SquareNonNegative(e);
    assert e * e == S * S - 2.0 * k * S * a + k * k * a * a;
    assert k * (Q + k * a * a) >= k * (2.0 * S * a);
  }

  /** Arithmetic mean as the source computes it: 0 for no values, else sum over count. */
  method CalculateAverage(values: seq<real>) returns (avg: real)
    ensures avg == Mean(values)
  {
    if |values| == 0 {
      return 0.0;
    }
    var sum := 0.0;
    for i := 0 to |values|
      invariant sum == Sum(values[..i])
    {
      assert values[..i + 1][..i] == values[..i];
      sum := sum + values[i];
    }
    assert values[..|values|] == values;
    avg := sum / |values| as real;
  }

  /**
   Square of the sample standard deviation about `mean` as the source computes
   it: 0 for at most one value, else the squared deviations over n - 1.
   */
  method CalculateVariance(values: seq<real>, mean: real) returns (variance: real)
    ensures variance == VarianceAbout(values, mean)
    ensures variance >= 0.0
  {
    if |values| <= 1 {
      return 0.0;
    }
    var sum := 0.0;
    for i := 0 to |values|
      invariant sum == SqDevSum(values[..i], mean)
    {
      assert values[..i + 1][..i] == values[..i];
      sum := sum + (values[i] - mean) * (values[i] - mean);
    }
    assert values[..|values|] == values;
    variance := sum / (|values| - 1) as real;
  }
}
