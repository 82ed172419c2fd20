/**
 The slow path that runs once per accepted observation: append it to the
 shared window, trim the window to its capacity, read the window back, export
 the rolling RPS mean and count the observation as an anomaly when its RPS
 value fails the z-score test against the window it now belongs to.

 Each call of Process is one slow-path run taken on its own; concurrent runs
 against the same store are not modelled.
 */
module Ingestion {
  import opened RollingStats
  import opened RedisList
  import opened SlidingWindow
  import opened ZScore

  /** One observation; the timestamp is an instant, here a count of nanoseconds. */
  datatype Metric = Metric(timestamp: int, cpu: real, rps: real)

  /** Number of observations the window keeps. */
  const WindowSize: int := 50

  /** The RPS values of a window, oldest first. */
  function Rps(window: seq<Metric>): seq<real>
  {
    seq(|window|, i requires 0 <= i < |window| => window[i].rps)
  }

  /** The CPU values of a window, oldest first. */
  function Cpu(window: seq<Metric>): seq<real>
  {
    seq(|window|, i requires 0 <= i < |window| => window[i].cpu)
  }

  /**
   Splits a window snapshot into its RPS and CPU values, element by element:
   same length, same order.
   */
  method Project(window: seq<Metric>) returns (rpsValues: seq<real>, cpuValues: seq<real>)
    ensures |rpsValues| == |window| && |cpuValues| == |window|
    ensures forall i :: 0 <= i < |window| ==> rpsValues[i] == window[i].rps && cpuValues[i] == window[i].cpu
    ensures rpsValues == Rps(window) && cpuValues == Cpu(window)
  {
    rpsValues, cpuValues := [], [];
    for k := 0 to |window|
      invariant |rpsValues| == k && |cpuValues| == k
      invariant forall i :: 0 <= i < k ==> rpsValues[i] == window[i].rps && cpuValues[i] == window[i].cpu
    {
      rpsValues := rpsValues + [window[k].rps];
      cpuValues := cpuValues + [window[k].cpu];
    }
  }

  /**
   The z-score decision for the value `current` against the window values, as
   the slow path takes it: no verdict below two values or at a zero standard
   deviation, else anomalous when |current - mean| exceeds Threshold standard
   deviations.
   */
  method Classify(current: real, values: seq<real>) returns (anomalous: bool)
    ensures anomalous == IsAnomaly(current, values)
    ensures anomalous ==> |values| >= 2 && Variance(values) > 0.0
  {
    anomalous := false;
    if |values| >= 2 {
      var mean := CalculateAverage(values);
      var variance := CalculateVariance(values, mean);
      anomalous := Exceeds(current, mean, variance);
    }
  }

  /**
   The service state the slow path touches: the Redis list under the key
   "metrics", the configured capacity, the anomaly counter and the rolling
   average gauge.
   */
  class AppState {
    const windowSize: int := WindowSize
    var window: seq<Metric>
    var anomalyCount: nat
    var rollingAvg: real

    /**
     The store may already hold a list from earlier runs, so the window starts
     from whatever `stored` is; the counter and the gauge start at 0.
     */
    constructor (stored: seq<Metric>)
      ensures window == stored && anomalyCount == 0 && rollingAvg == 0.0
    {
      window := stored;
      anomalyCount := 0;
      rollingAvg := 0.0;
    }

    /**
     One slow-path run for the observation m. `pushOk`, `trimOk` and `rangeOk`
     say whether the store answered RPUSH, LTRIM and LRANGE without error.
     */
    method Process(m: Metric, pushOk: bool, trimOk: bool, rangeOk: bool)
      modifies this
      // A failed RPUSH ends the run: nothing changes.
      ensures !pushOk ==> window == old(window) && rollingAvg == old(rollingAvg) && anomalyCount == old(anomalyCount)
      // The window is appended to, then trimmed to the newest windowSize entries unless LTRIM failed.
      ensures pushOk ==> window == if trimOk then Update(old(window), m, windowSize) else old(window) + [m]
      ensures pushOk && trimOk ==> window == Newest(old(window) + [m], windowSize) && |window| <= windowSize
      ensures pushOk && trimOk && |old(window)| < windowSize ==> window == old(window) + [m]
      // The observation just pushed is the newest entry, so its RPS value is part of its own baseline.
      ensures pushOk ==> |window| > 0 && window[|window| - 1] == m && Rps(window)[|window| - 1] == m.rps
      // A failed LRANGE ends the run before the gauge and the counter are touched.
      ensures !(pushOk && rangeOk) ==> rollingAvg == old(rollingAvg) && anomalyCount == old(anomalyCount)
      ensures pushOk && rangeOk ==> rollingAvg == Mean(Rps(window))
      ensures pushOk && rangeOk ==>
                anomalyCount == old(anomalyCount) + if IsAnomaly(m.rps, Rps(window)) then 1 else 0
      ensures anomalyCount > old(anomalyCount) ==> |window| >= 6
    {
      if !pushOk {
        return;
      }
      PushAndTrim(m, trimOk);
      if rangeOk {
        Evaluate(m);
      }
    }

    /** RPUSH of m, then LTRIM to the newest windowSize entries when `trimOk`. */
    method PushAndTrim(m: Metric, trimOk: bool)
      modifies this`window
      ensures window == if trimOk then Update(old(window), m, windowSize) else old(window) + [m]
      ensures trimOk ==> window == Newest(old(window) + [m], windowSize) && |window| <= windowSize
      ensures trimOk && |old(window)| < windowSize ==> window == old(window) + [m]
      ensures |window| > 0 && window[|window| - 1] == m
    {
      window := RPush(window, m);
      if trimOk {
        UpdateKeepsNewest(old(window), m, windowSize);
        window := LTrim(window, -windowSize, -1);
      }
    }

    /**
     LRANGE of the whole window, then the rolling mean gauge and the verdict
     for m, whose RPS value the window already holds as its newest entry.
     */
    method Evaluate(m: Metric)
      requires |window| > 0 && window[|window| - 1] == m
      modifies this`rollingAvg, this`anomalyCount
      ensures Rps(window)[|window| - 1] == m.rps
      ensures rollingAvg == Mean(Rps(window))
      ensures anomalyCount == old(anomalyCount) + if IsAnomaly(m.rps, Rps(window)) then 1 else 0
      ensures anomalyCount > old(anomalyCount) ==> |window| >= 6
    {
      var snapshot := LRange(window, 0, -1);
      WholeRange(window);
      var rpsValues, cpuValues := Project(snapshot);

      var avg := CalculateAverage(rpsValues);
      rollingAvg := avg;

      var anomalous := Classify(m.rps, rpsValues);
      if anomalous {
        AnomalyNeedsSixValues(rpsValues);
        anomalyCount := anomalyCount + 1;
      }
    }
  }
}
