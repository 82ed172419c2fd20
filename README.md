# Sliding-window RPS anomaly detector

A Dafny model of the part of the Go streaming-analytics service that does the
analysis. For every accepted observation (a `Metric`: timestamp, CPU percent,
requests per second) a background run does four things:

1. it appends the observation to a Redis list ("metrics") with RPUSH;
2. it trims the list to its newest `windowSize = 50` entries with LTRIM;
3. it reads the list back with LRANGE and takes its RPS and CPU values;
4. it sets the rolling-average gauge to the mean RPS and raises the anomaly
   counter when the absolute value of the new RPS value's z-score against the
   window exceeds 2, so a sudden drop is flagged as well as a spike.

Modules, one per concern:

- `RedisList` (`redis_list.dfy`): RPUSH, LTRIM and LRANGE on the list's
  value. Indices follow Redis's rules: negative indices count from the end,
  both bounds are inclusive, and out-of-range bounds are clamped.
- `SlidingWindow` (`window.dfy`): one window update is RPUSH followed by
  `LTRIM key -W -1`. The module proves what that keeps, for one update and for
  a sequence of updates.
- `RollingStats` (`stats.dfy`): the mean and the sample variance (divided by
  n - 1) as recursive functions. `calculateAverage` and
  `calculateStandardDeviation` are loop methods proved against them.
- `ZScore` (`zscore.dfy`): the anomaly test and its properties.
- `Ingestion` (`ingestion.dfy`): the `Metric` datatype and the class
  `AppState`. It holds the window, the anomaly counter and the gauge.
  `Process` is one background run.

Numbers are Dafny `real`s. Every result holds in exact real arithmetic, not
bit for bit for IEEE-754 doubles. Errors from the store are inputs to
`Process`: `pushOk`, `trimOk` and `rangeOk` say whether RPUSH, LTRIM and
LRANGE succeeded.

The source takes the square root of the variance and compares
`|x - mean| / stdDev` with 2. The model keeps the squared form instead:
`variance != 0 && (x - mean)^2 > 4 * variance`. `ZScore.ZScoreTest` proves
that the two tests agree for every non-negative square root.

The window is updated before the statistics are taken. The tested value is
therefore part of its own baseline. By Samuelson's inequality this has a
consequence: with n values, the newest value's |z| is at most
(n - 1) / sqrt(n). So nothing can be flagged until the window holds six values
(`ZScore.AnomalyNeedsSixValues`). `ZScore.SixValuesCanBeAnomalous` shows that
six values are enough.

Two consequences of main.go that the model makes explicit:

- The tested value is in its own baseline: the observation is appended
  (main.go:226) before the window is read back (main.go:237) and its RPS
  value is tested against that snapshot (main.go:257). So for the window
  10, 10, 10, 10, 10, 50 the standard deviation is not zero and 50 is
  flagged (`ZScore.SixValuesCanBeAnomalous`).
- A failed LTRIM (main.go:233-235) is only logged. It leaves the appended,
  untrimmed list in place, so `Process` promises the length bound only when
  `trimOk` holds.

The capacity is the constant 50 (main.go:95), so the trim is always
`LTRIM key -50 -1`. A capacity of 0 would make that `LTRIM key 0 -1`, which
keeps the whole list, but that case never occurs.

## Model

| member | source | states |
|---|---|---|
| `Ingestion.AppState.constructor` | main.go:93-101 | the window starts as the list already in the store; the anomaly counter and the rolling-average gauge start at 0; the capacity is the constant 50 |
| `Ingestion.AppState.Process` | main.go:221-273 | failed RPUSH: window, gauge and counter unchanged. Otherwise the window is old + [m], trimmed to its newest 50 unless LTRIM failed, and ends with m. Failed LRANGE: gauge and counter unchanged. Otherwise the gauge is the window's mean RPS and the counter rises by exactly 1 iff `IsAnomaly(m.rps, Rps(window))`. A rise implies the window holds at least 6 entries |
| `Ingestion.AppState.PushAndTrim` | main.go:226-235 | the new list is `Update(old, m, 50)` after a successful LTRIM, else old + [m]. After LTRIM it is the newest min(len(old) + 1, 50) entries of old + [m], so at most 50. With fewer than 50 before, nothing is dropped. Its last entry is m |
| `Ingestion.AppState.Evaluate` | main.go:237-269 | reads the whole window. The gauge becomes the mean of its RPS values. The newest RPS value is m.rps. The counter rises by 1 exactly when m.rps is anomalous against those values, and only for windows of 6 or more |
| `Ingestion.Project` | main.go:243-249 | the RPS and CPU slices have the snapshot's length and order: element i of each is entry i's field |
| `Ingestion.Classify` | main.go:255-269 | the verdict is `IsAnomaly(current, values)`: false below two values or at zero variance. A positive verdict implies at least two values and a positive variance |
| `RedisList.WholeRange` | main.go:237 | `LRANGE key 0 -1` returns the whole list in order |
| `RedisList.TrimToNewest` | main.go:232 | for W >= 1, `LTRIM key -W -1` keeps exactly the newest min(len(list), W) elements, oldest first |
| `SlidingWindow.UpdateKeepsNewest` | main.go:226-232 | for W >= 1, one update yields the newest min(len(old) + 1, W) elements of old + [m]. The length is at most W, the last element is m, and a window with room keeps everything |
| `SlidingWindow.NewestAbsorbs` | main.go:226-232 | trimming to the newest W before an append and trim gives the same window as trimming only afterwards |
| `SlidingWindow.ReplayKeepsNewest` | main.go:226-232 | after one or more sequential updates, the window is exactly the newest W of everything held and appended. Its length is min(len(old) + len(ms), W), each kept entry is an unchanged element of old + ms, and entries are evicted oldest first |
| `RollingStats.SqDevSum` | main.go:298-301 | the accumulated squared deviations are never negative |
| `RollingStats.VarianceAbout` | main.go:294-302 | the sample variance is never negative, and times n - 1 it gives back the sum of squared deviations (n >= 2) |
| `RollingStats.CalculateAverage` | main.go:283-292 | returns the mean: 0 for no values, else the loop's sum over the count |
| `RollingStats.CalculateVariance` | main.go:294-303 | returns 0 for at most one value. Otherwise it returns the squared deviations from `mean` over n - 1, the square of the source's result, and never a negative number |
| `RollingStats.SumBounds` | main.go:287-290 | if every value lies in [lo, hi], the sum lies in [n * lo, n * hi] |
| `RollingStats.MeanBounds` | main.go:283-292 | the mean of a non-empty window lies between any lower and upper bound of its values |
| `RollingStats.ConstantWindow` | main.go:283-303 | a window whose values all equal c has mean c and variance 0 |
| `RollingStats.DevSumIsSumLessCount` | main.go:283-292 | the deviations from c add up to the sum minus n * c |
| `RollingStats.TotalDeviationBound` | main.go:298-302 | Cauchy-Schwarz: the squared sum of deviations is at most n times the sum of their squares |
| `ZScore.ZScoreTest` | main.go:261-263 | for any sd >= 0: `sd != 0 && Abs((x - mean) / sd) > 2` holds iff `Exceeds(x, mean, sd * sd)` |
| `ZScore.ConstantWindowNeverAnomalous` | main.go:256-266 | a window of equal values never yields an anomaly, whatever value is tested |
| `ZScore.DevSumAtMean` | main.go:283-292 | the deviations from the window's own mean add up to zero |
| `ZScore.NewestDeviationBound` | main.go:255-262 | Samuelson: n * (newest - mean)^2 <= (n - 1) * the sum of squared deviations |
| `ZScore.AnomalyNeedsSixValues` | main.go:255-266 | if the newest value of a window is anomalous against it, the window holds at least 6 values |
| `ZScore.SixValuesCanBeAnomalous` | main.go:255-266 | 50 is anomalous against 10, 10, 10, 10, 10, 50, so the bound of six is reached |
| `ZScore.WindowExamples` | main.go:255-266 | 60 is anomalous against 10, 12, 9, 11, 10, 60 (z about 2.04). 11 is not anomalous against 10, 12, 9, 11, 10, 11 |

## Left out

- The HTTP handlers for `/`, `/health`, `/count` and `/metrics`, and the
  request side of `/analyze` (main.go:115-219, 275-280): routing and response
  plumbing. The durable counter is incremented before the JSON body is
  decoded (main.go:201 against main.go:212), so malformed payloads are still
  counted.
- The request counter and the CPU and RPS gauges set on the fast path
  (main.go:209, 218-219): these are in the handler, not in the background run.
- Startup (main.go:39-113): the Redis ping-and-retry loop with its sleeps,
  `getEnv`, and `ListenAndServe`.
- The Prometheus library: the anomaly counter is a `nat` field and the
  rolling-average gauge a `real` field.
- JSON encoding of window entries (main.go:225, 246): entries are stored as
  `Metric` values. A `time.Time` going through JSON loses its monotonic clock
  reading and location; timestamps here are plain integers.
- Concurrency: each `Process` call is one background run on its own. Runs that
  interleave against the shared list are not modelled, so neither is the
  length of a list written by several runs at once.
- The reasons a store call fails: only the success flags are modelled.
- Ingestion.AppState.Process and Ingestion.AppState.PushAndTrim: a store call
  that reports an error is taken to have had no effect on the list. A
  timed-out RPUSH or LTRIM may in fact have been applied by Redis, so the
  list after an error is not pinned down by main.go:226-235 as these
  contracts state.
- Logging (main.go:228, 234, 239, 264, 271).
- IEEE-754 rounding, NaN and infinities: numbers are exact reals.
- RollingStats.CalculateVariance: returns the variance, the square of what
  `calculateStandardDeviation` returns, because `math.Sqrt` cannot be
  expressed without an axiom. `ZScore.ZScoreTest` covers the comparison for
  every non-negative square root.
- locustfile.py: a load-generation script that sends random HTTP traffic; it
  is not part of the service.
