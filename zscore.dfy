/**
 The z-score classification of the newest RPS value against the window's
 rolling statistics.

 The source divides by the standard deviation (the square root of the
 variance) and compares |z| with 2.0. Here the test is stated on the variance:
 for a standard deviation sd >= 0 with sd * sd == variance,
 sd != 0 && |(x - mean) / sd| > 2  iff  variance != 0 && (x - mean)^2 > 4 * variance
 (ZScoreTest). Everything holds in exact real arithmetic.
 */
module ZScore {
  import opened RollingStats

  /** An observation is anomalous when its |z-score| exceeds this many standard deviations. */
  const Threshold: real := 2.0

  function Abs(x: real): real
  {
    if x < 0.0 then -x else x
  }

  /** The guarded test stdDev != 0 && |(x - mean) / stdDev| > Threshold, on the squared scale. */
  predicate Exceeds(x: real, mean: real, variance: real)
  {
    variance != 0.0 && (x - mean) * (x - mean) > Threshold * Threshold * variance
  }

  /**
   The verdict for the value x against the window values: no verdict (not
   anomalous) for fewer than two values or a zero standard deviation.
   */
  predicate IsAnomaly(x: real, values: seq<real>)
  {
    |values| >= 2 && Exceeds(x, Mean(values), Variance(values))
  }

  /** The product of two positive reals is positive. */
  lemma PositiveProduct(a: real, b: real)
    requires a > 0.0 && b > 0.0
    ensures a * b > 0.0
  {
  }

  /** For non-negative u and v, u exceeds v exactly when u * u exceeds v * v. */
  lemma SquareMonotonic(u: real, v: real)
    requires u >= 0.0 && v >= 0.0
    ensures u > v <==> u * u > v * v
  {
    assert u * u - v * v == (u - v) * (u + v);
    if u > v {
      PositiveProduct(u - v, u + v);
    } else {
      assert (v - u) * (v + u) >= 0.0;
    }
  }

  /**
   The squared test agrees with the source's division-based test for every
   non-negative square root sd of the variance.
   */
  lemma ZScoreTest(x: real, mean: real, sd: real)
    requires sd >= 0.0
    ensures (sd != 0.0 && Abs((x - mean) / sd) > Threshold) <==> Exceeds(x, mean, sd * sd)
  {
    if sd > 0.0 {
      PositiveProduct(sd, sd);
      ScaledComparison(x - mean, sd);
      SquaredComparison(x - mean, sd);
    }
  }

  /** Dividing by a positive sd: |d / sd| > Threshold iff |d| > Threshold * sd. */
  lemma ScaledComparison(d: real, sd: real)
    requires sd > 0.0
    ensures Abs(d / sd) > Threshold <==> Abs(d) > Threshold * sd
  {
    var z := d / sd;
    assert d == z * sd;
    assert Abs(d) == Abs(z) * sd;
    if Abs(z) > Threshold {
      PositiveProduct(Abs(z) - Threshold, sd);
    } else {
      assert (Threshold - Abs(z)) * sd >= 0.0;
    }
  }

  /** For a positive sd: |d| > Threshold * sd iff d * d > Threshold^2 * sd^2. */
  lemma SquaredComparison(d: real, sd: real)
    requires sd > 0.0
    ensures Abs(d) > Threshold * sd <==> d * d > Threshold * Threshold * (sd * sd)
  {
    assert d * d == Abs(d) * Abs(d);
    SquareMonotonic(Abs(d), Threshold * sd);
    assert (Threshold * sd) * (Threshold * sd) == Threshold * Threshold * (sd * sd);
  }

  /** A window whose values are all equal never yields an anomaly, whatever the value tested. */
  lemma ConstantWindowNeverAnomalous(values: seq<real>, c: real, x: real)
    requires forall i :: 0 <= i < |values| ==> values[i] == c
    ensures !IsAnomaly(x, values)
  {
    if |values| > 0 {
      ConstantWindow(values, c);
    }
  }

  /**
   Samuelson's inequality for the newest value: its squared deviation from the
   mean, times n, is at most (n - 1) times the sum of squared deviations.
   */
  lemma NewestDeviationBound(s: seq<real>, mean: real)
    requires |s| >= 2 && mean == Mean(s)
    ensures |s| as real * ((s[|s| - 1] - mean) * (s[|s| - 1] - mean)) <= (|s| - 1) as real * SqDevSum(s, mean)
  {
    DevSumAtMean(s);
    NewestDeviationBoundAbout(s, mean);
  }

  /** The deviations of a non-empty sequence from its own mean add up to zero. */
  lemma DevSumAtMean(s: seq<real>)
    requires |s| > 0
    ensures DevSum(s, Mean(s)) == 0.0
  {
    DevSumIsSumLessCount(s, Mean(s));
    assert |s| as real * Mean(s) == Sum(s);
  }

  /** NewestDeviationBound about any point c from which the deviations add up to zero. */
  lemma NewestDeviationBoundAbout(s: seq<real>, c: real)
    requires |s| >= 2 && DevSum(s, c) == 0.0
    ensures |s| as real * ((s[|s| - 1] - c) * (s[|s| - 1] - c)) <= (|s| - 1) as real * SqDevSum(s, c)
  {
    var p := s[..|s| - 1];
    TotalDeviationBound(p, c);
    SamuelsonStep(|p| as real, s[|s| - 1] - c, DevSum(p, c), SqDevSum(p, c), |s| as real, SqDevSum(s, c));
  }

  /**
   The step of NewestDeviationBoundAbout over reals: the k older deviations sum
   to e == -d and satisfy e * e <= k * Q, so n * d * d <= k * (Q + d * d).
   */
  lemma SamuelsonStep(k: real, d: real, e: real, Q: real, n: real, T: real)
    requires n == k + 1.0
    requires e + d == 0.0
    requires SquareAtMost(e, k, Q)
    requires T == Q + d * d
    ensures n * (d * d) <= k * T
  {
    assert e * e == d * d;
  }

  /** From n * d2 <= (n - 1) * T with T == (n - 1) * variance and d2 > 4 * variance > 0, n >= 6. */
  lemma SixFromBounds(n: int, d2: real, variance: real, T: real)
    requires n >= 2 && variance > 0.0
    requires d2 > Threshold * Threshold * variance
    requires variance * (n - 1) as real == T
    requires n as real * d2 <= (n - 1) as real * T
    ensures n >= 6
  {
    var r := n as real;
    assert r * d2 > r * (4.0 * variance);
    var a := (r - 1.0) * (r - 1.0) - 4.0 * r;
    assert a * variance == (r - 1.0) * T - r * (4.0 * variance);
    assert a > 0.0;
    assert n * (n - 6) >= 0;
  }

  /**
   Because the tested value is part of its own baseline, an anomaly needs at
   least six values in the window: with n values the newest one's |z-score|
   is at most (n - 1) / sqrt(n), which exceeds 2 only from n = 6 on.
   */
  lemma AnomalyNeedsSixValues(s: seq<real>)
    requires |s| > 0 && IsAnomaly(s[|s| - 1], s)
    ensures |s| >= 6
  {
    DevSumAtMean(s);
    ExceedsNeedsSixValues(s, Mean(s), Variance(s));
  }

  /** AnomalyNeedsSixValues about any point c from which the deviations add up to zero. */
  lemma ExceedsNeedsSixValues(s: seq<real>, c: real, variance: real)
    requires |s| >= 2 && DevSum(s, c) == 0.0
    requires variance == VarianceAbout(s, c)
    requires Exceeds(s[|s| - 1], c, variance)
    ensures |s| >= 6
  {
    NewestDeviationBoundAbout(s, c);
    SixFromBounds(|s|, (s[|s| - 1] - c) * (s[|s| - 1] - c), variance, SqDevSum(s, c));
  }

  /** Sum and squared deviations of a six-value window, written out. */
  lemma SixValueWindow(a: real, b: real, c: real, d: real, e: real, f: real, m: real)
    ensures Sum([a, b, c, d, e, f]) == a + b + c + d + e + f
    ensures SqDevSum([a, b, c, d, e, f], m)
            == (a - m) * (a - m) + (b - m) * (b - m) + (c - m) * (c - m)
             + (d - m) * (d - m) + (e - m) * (e - m) + (f - m) * (f - m)
  {
    assert [a, b, c, d, e, f][..5] == [a, b, c, d, e];
    assert [a, b, c, d, e][..4] == [a, b, c, d];
    assert [a, b, c, d][..3] == [a, b, c];
    assert [a, b, c][..2] == [a, b];
    assert [a, b][..1] == [a];
    assert [a][..0] == [];
    assert Sum([a]) == a;
    assert Sum([a, b]) == a + b;
    assert Sum([a, b, c]) == a + b + c;
    assert Sum([a, b, c, d]) == a + b + c + d;
    assert Sum([a, b, c, d, e]) == a + b + c + d + e;
    var a2, b2, c2, d2, e2 := (a - m) * (a - m), (b - m) * (b - m), (c - m) * (c - m), (d - m) * (d - m), (e - m) * (e - m);
    assert SqDevSum([a], m) == a2;
    assert SqDevSum([a, b], m) == a2 + b2;
    assert SqDevSum([a, b, c], m) == a2 + b2 + c2;
    assert SqDevSum([a, b, c, d], m) == a2 + b2 + c2 + d2;
    assert SqDevSum([a, b, c, d, e], m) == a2 + b2 + c2 + d2 + e2;
  }

  /** Six values suffice: 10, 10, 10, 10, 10 followed by the jump to 50 flags 50. */
  lemma SixValuesCanBeAnomalous()
    ensures IsAnomaly(50.0, [10.0, 10.0, 10.0, 10.0, 10.0, 50.0])
  {
    var s := [10.0, 10.0, 10.0, 10.0, 10.0, 50.0];
    SixValueWindow(10.0, 10.0, 10.0, 10.0, 10.0, 50.0, 50.0 / 3.0);
    assert Mean(s) == 50.0 / 3.0;
    assert SqDevSum(s, 50.0 / 3.0) == 4000.0 / 3.0;
  }

  /**
   The window 10, 12, 9, 11, 10 followed by 60 flags 60 (|z| about 2.04);
   followed by 11 instead it does not flag 11.
   */
  lemma WindowExamples()
    ensures IsAnomaly(60.0, [10.0, 12.0, 9.0, 11.0, 10.0, 60.0])
    ensures !IsAnomaly(11.0, [10.0, 12.0, 9.0, 11.0, 10.0, 11.0])
  {
    var s, t := [10.0, 12.0, 9.0, 11.0, 10.0, 60.0], [10.0, 12.0, 9.0, 11.0, 10.0, 11.0];
    SixValueWindow(10.0, 12.0, 9.0, 11.0, 10.0, 60.0, 56.0 / 3.0);
    assert Mean(s) == 56.0 / 3.0;
    assert SqDevSum(s, 56.0 / 3.0) == 6166.0 / 3.0;
    SixValueWindow(10.0, 12.0, 9.0, 11.0, 10.0, 11.0, 21.0 / 2.0);
    assert Mean(t) == 21.0 / 2.0;
    assert SqDevSum(t, 21.0 / 2.0) == 11.0 / 2.0;
  }
}
