/** Batch statistics and batch-size control (performance/optimizer.go). */
module Optimizer {
  import opened Arithmetic

  // ----- Running statistics -----

  datatype SyncStats = SyncStats(
    totalRead: int, batchCount: int, avgBatchSize: int, minBatchTime: int, maxBatchTime: int, avgBatchTime: int)

  function Sum(times: seq<int>): int {
    if times == [] then 0 else Sum(times[..|times| - 1]) + times[|times| - 1]
  }

  function RunningAverage(times: seq<int>): int {
    if times == [] then 0
    else (RunningAverage(times[..|times| - 1]) * (|times| - 1) + times[|times| - 1]) / |times|
  }

  /** The minimum as its sentinel value 0 leaves it: a recorded zero is forgotten by the next batch. */
  function TrackedMin(times: seq<int>): int {
    if times == [] then 0
    else
      var m, t := TrackedMin(times[..|times| - 1]), times[|times| - 1];
      if m == 0 || t < m then t else m
  }

  function TrackedMax(times: seq<int>): int {
    if times == [] then 0
    else
      var m, t := TrackedMax(times[..|times| - 1]), times[|times| - 1];
      if t > m then t else m
  }

  class PerformanceOptimizer {
    var stats: SyncStats
    ghost var times: seq<int>
    ghost var counts: seq<int>

    ghost predicate Valid()
      reads this
    {
      && stats.batchCount == |times| == |counts|
      && stats.totalRead == Sum(counts)
      && stats.avgBatchSize == (if counts == [] then 0 else Sum(counts) / |counts|)
      && stats.minBatchTime == TrackedMin(times)
      && stats.maxBatchTime == TrackedMax(times)
      && stats.avgBatchTime == RunningAverage(times)
      && (forall i :: 0 <= i < |times| ==> times[i] >= 0 && counts[i] >= 0)
    }

    constructor ()
      ensures Valid() && times == [] && counts == []
    {
      stats := SyncStats(0, 0, 0, 0, 0, 0);
      times, counts := [], [];
    }

    method RecordBatch(count: nat, processingTimeMs: nat)
      requires Valid()
      modifies this
      ensures Valid() && times == old(times) + [processingTimeMs] && counts == old(counts) + [count]
    {
      var n := stats.batchCount + 1;
      stats := stats.(totalRead := stats.totalRead + count, batchCount := n);
      if stats.minBatchTime == 0 || processingTimeMs < stats.minBatchTime {
        stats := stats.(minBatchTime := processingTimeMs);
      }
      if processingTimeMs > stats.maxBatchTime {
        stats := stats.(maxBatchTime := processingTimeMs);
      }
      stats := stats.(avgBatchTime := (stats.avgBatchTime * (n - 1) + processingTimeMs) / n,
                      avgBatchSize := stats.totalRead / n);
      times := times + [processingTimeMs];
      counts := counts + [count];
      assert times[..n - 1] == old(times) && counts[..n - 1] == old(counts);
    }
  }

  ghost predicate IsMin(times: seq<int>, m: int) {
    m in times && forall i :: 0 <= i < |times| ==> m <= times[i]
  }

  ghost predicate IsMax(times: seq<int>, m: int) {
    m in times && forall i :: 0 <= i < |times| ==> times[i] <= m
  }

  lemma {:induction false} MaxIsTrue(times: seq<int>)
    requires times != [] && forall i :: 0 <= i < |times| ==> times[i] >= 0
    ensures IsMax(times, TrackedMax(times))
  {
    var n := |times| - 1;
    var init := times[..n];
    assert times == init + [times[n]];
    if init != [] {
      MaxIsTrue(init);
      assert forall i :: 0 <= i < n ==> init[i] == times[i];
    }
  }

  /** The minimum kept is the true one exactly when no zero was recorded before the last batch. */
  lemma {:induction false} MinIsTrueExactly(times: seq<int>)
    requires times != [] && forall i :: 0 <= i < |times| ==> times[i] >= 0
    ensures TrackedMin(times) in times
    ensures IsMin(times, TrackedMin(times)) <==>
              times[|times| - 1] == 0 || forall i :: 0 <= i < |times| ==> times[i] > 0
    ensures (forall i :: 0 <= i < |times| ==> times[i] > 0) ==> TrackedMin(times) > 0
    ensures TrackedMin(times) == 0 <==> times[|times| - 1] == 0
  {
    var n := |times| - 1;
    var init, t := times[..n], times[n];
    assert times == init + [t];
    if init != [] {
      MinIsTrueExactly(init);
      assert forall i :: 0 <= i < n ==> init[i] == times[i];
      assert TrackedMin(init) in times;
    }
  }

  lemma GapGrows(n: int)
    requires n >= 1
    ensures (n - 1) * (n - 2) + 2 * (n - 1) == n * (n - 1)
  {
  }

  /** One truncated step, over the products it is made of: `kept` is n-1 times the old average and
      `next` n times the new one. */
  lemma AverageStep(sum: int, avg: int, n: int, t: int, gap: int)
    requires n >= 1 && avg >= 0 && t >= 0 && 0 <= 2 * (sum - (n - 1) * avg) <= gap
    ensures var avg' := (avg * (n - 1) + t) / n;
      0 <= 2 * (sum + t - n * avg') <= gap + 2 * (n - 1) && avg' >= 0
  {
    var kept := avg * (n - 1);
    assert kept == (n - 1) * avg;
    ProductNonNegative(avg, n - 1);
    QuotientBounds(kept + t, n);
    var avg' := (kept + t) / n;
    var next := avg' * n;
    assert next == n * avg';
    assert (avg' + 1) * n == next + n;
  }

  /** After n batches the truncated running average falls short of the true one, and n times it
      misses the sum by at most n(n-1)/2. */
  lemma {:induction false} AverageBounds(times: seq<int>)
    requires forall i :: 0 <= i < |times| ==> times[i] >= 0
    ensures RunningAverage(times) >= 0
    ensures 0 <= 2 * (Sum(times) - |times| * RunningAverage(times)) <= |times| * (|times| - 1)
  {
    if times != [] {
      var init := times[..|times| - 1];
      AverageBounds(init);
      var n := |times|;
      AverageStep(Sum(init), RunningAverage(init), n, times[n - 1], (n - 1) * (n - 2));
      GapGrows(n);
    }
  }

  lemma ScaleBetween(lo: int, x: int, hi: int, k: nat)
    requires lo <= x <= hi
    ensures lo * k <= x * k <= hi * k
  {
  }

  lemma QuotientBetween(total: int, n: int, lo: int, hi: int)
    requires n >= 1 && 0 <= lo && lo * n <= total <= hi * n
    ensures lo <= total / n <= hi
  {
    assert lo * n >= 0;
    QuotientBounds(total, n);
    CancelFactor(lo, total / n + 1, n);
    assert (hi + 1) * n == hi * n + n;
    CancelFactor(total / n, hi + 1, n);
  }

  /** One truncated step keeps the average between two bounds. */
  lemma AverageStepWithin(avg: int, n: int, t: int, lo: int, hi: int)
    requires n >= 1 && 0 <= lo <= t <= hi && (n > 1 ==> lo <= avg <= hi) && (n == 1 ==> avg == 0)
    ensures lo <= (avg * (n - 1) + t) / n <= hi
  {
    var kept := avg * (n - 1);
    StepBack(n, lo);
    StepBack(n, hi);
    if n > 1 {
      ScaleBetween(lo, avg, hi, n - 1);
    }
    assert lo * n == n * lo && hi * n == n * hi && lo * (n - 1) == (n - 1) * lo && hi * (n - 1) == (n - 1) * hi;
    QuotientBetween(kept + t, n, lo, hi);
  }

  lemma {:induction false} AverageWithin(times: seq<int>, lo: int, hi: int)
    requires times != [] && 0 <= lo && forall i :: 0 <= i < |times| ==> lo <= times[i] <= hi
    ensures lo <= RunningAverage(times) <= hi
  {
    var n := |times|;
    var init := times[..n - 1];
    if n > 1 {
      AverageWithin(init, lo, hi);
    }
    AverageStepWithin(RunningAverage(init), n, times[n - 1], lo, hi);
  }

  /** With positive times the statistics are the true extremes, and the average lies between them. */
  lemma StatsAreTrue(times: seq<int>)
    requires times != [] && forall i :: 0 <= i < |times| ==> times[i] > 0
    ensures IsMin(times, TrackedMin(times)) && IsMax(times, TrackedMax(times))
    ensures TrackedMin(times) <= RunningAverage(times) <= TrackedMax(times)
  {
    MinIsTrueExactly(times);
    MaxIsTrue(times);
    AverageWithin(times, TrackedMin(times), TrackedMax(times));
  }

  // ----- Batch-size control -----

  /** `int(float64(n) * 0.7)`.  The double nearest 0.7 lies below it and the product is rounded, so
      an exact product may come out one lower (as for 90); any rounding within these bounds is
      allowed. */
  ghost predicate IsShrink(shrink: int -> int) {
    forall n :: if n >= 0 then 69 * n - 100 <= 100 * shrink(n) <= 71 * n && shrink(n) >= 0 else shrink(n) <= 0
  }

  /** `int(float64(n) * 1.5)`, exact below 2^52; the conversion truncates toward zero. */
  function Grow(n: int): int { if n >= 0 then 3 * n / 2 else -(3 * -n / 2) }

  const MIN_BATCH := 100
  const MAX_BATCH := 10000
  const TARGET_MS := 1000

  function OptimizeBatchSize(shrink: int -> int, current: int, avgMs: int): int {
    if avgMs == 0 then current
    else if avgMs < TARGET_MS / 2 then (if Grow(current) > MAX_BATCH then MAX_BATCH else Grow(current))
    else if avgMs > TARGET_MS * 2 then (if shrink(current) < MIN_BATCH then MIN_BATCH else shrink(current))
    else current
  }

  predicate Fast(avgMs: int) { avgMs != 0 && avgMs < TARGET_MS / 2 }

  predicate Slow(avgMs: int) { avgMs > TARGET_MS * 2 }

  /** What one signal does: an average of 500 to 2000 ms, or of 0, keeps the size, a smaller one enlarges
      it by half up to 10000, a larger one shrinks it down to 100. */
  lemma ControlExactly(shrink: int -> int, current: int, avgMs: int, next: int)
    requires next == OptimizeBatchSize(shrink, current, avgMs)
    ensures Fast(avgMs) <==> avgMs != 0 && avgMs < 500
    ensures Slow(avgMs) <==> avgMs > 2000
    ensures avgMs == 0 || 500 <= avgMs <= 2000 ==> next == current
    ensures avgMs != 0 && avgMs < 500 && current > 6666 ==> next == 10000
    ensures avgMs != 0 && avgMs < 500 && 0 <= current <= 6666 ==> 3 * current - 1 <= 2 * next <= 3 * current
    ensures avgMs != 0 && avgMs < 500 && current < 0 ==> 3 * current <= 2 * next <= 3 * current + 1
    ensures avgMs > 2000 && shrink(current) <= 100 ==> next == 100
    ensures avgMs > 2000 && shrink(current) > 100 ==> next == shrink(current)
  {
  }

  function Control(shrink: int -> int, start: int, signals: seq<int>): int
    decreases signals
  {
    if signals == [] then start
    else Control(shrink, OptimizeBatchSize(shrink, start, signals[0]), signals[1..])
  }

  /** The range 100..10000 is closed under every signal. */
  lemma {:induction false} RangeIsKept(shrink: int -> int, start: int, signals: seq<int>)
    requires IsShrink(shrink) && MIN_BATCH <= start <= MAX_BATCH
    ensures MIN_BATCH <= Control(shrink, start, signals) <= MAX_BATCH
    decreases signals
  {
    if signals != [] {
      assert 100 * shrink(start) <= 71 * start;
      RangeIsKept(shrink, OptimizeBatchSize(shrink, start, signals[0]), signals[1..]);
    }
  }

  /** Fast signals reach exactly 10000 and stay there: the gap to 10000 shrinks with each of them. */
  lemma {:induction false} FastReachesMax(shrink: int -> int, start: int, signals: seq<int>)
    requires start >= 2 && |signals| >= MAX_BATCH - start && (start > MAX_BATCH ==> signals != [])
    requires forall i :: 0 <= i < |signals| ==> Fast(signals[i])
    ensures Control(shrink, start, signals) == MAX_BATCH
    decreases signals
  {
    if signals != [] {
      var next := OptimizeBatchSize(shrink, start, signals[0]);
      assert start < next <= MAX_BATCH || next == MAX_BATCH;
      FastReachesMax(shrink, next, signals[1..]);
    }
  }

  /** From a start of 0 or 1 no number of fast signals changes anything. */
  lemma {:induction false} FastStuck(shrink: int -> int, start: int, signals: seq<int>)
    requires 0 <= start <= 1 && forall i :: 0 <= i < |signals| ==> Fast(signals[i])
    ensures Control(shrink, start, signals) == start
    decreases signals
  {
    if signals != [] {
      FastStuck(shrink, start, signals[1..]);
    }
  }

  /** Repeated fast signals reach the maximum exactly from a start of at least 2. */
  lemma FastConvergesExactly(shrink: int -> int, start: nat, signals: seq<int>)
    requires |signals| >= MAX_BATCH && forall i :: 0 <= i < |signals| ==> Fast(signals[i])
    ensures Control(shrink, start, signals) == MAX_BATCH <==> start >= 2
  {
    if start >= 2 {
      FastReachesMax(shrink, start, signals);
    } else {
      FastStuck(shrink, start, signals);
    }
  }

  /** Slow signals reach exactly 100 from any start and stay there. */
  lemma {:induction false} SlowReachesMin(shrink: int -> int, start: nat, signals: seq<int>)
    requires IsShrink(shrink)
    requires |signals| >= start - MIN_BATCH && (start != MIN_BATCH ==> signals != [])
    requires forall i :: 0 <= i < |signals| ==> Slow(signals[i])
    ensures Control(shrink, start, signals) == MIN_BATCH
    decreases signals
  {
    if signals != [] {
      assert 100 * shrink(start) <= 71 * start;
      var next := OptimizeBatchSize(shrink, start, signals[0]);
      assert next == MIN_BATCH || MIN_BATCH <= next < start;
      SlowReachesMin(shrink, next, signals[1..]);
    }
  }
}
