/** Order statistics of latency samples, in exact arithmetic. */
module Statistics {
  import opened Prelude

  // ---------- Counting and sorting ----------

  function CountAtMost(s: seq<int>, y: int): (n: nat)
    ensures n <= |s|
  {
    if s == [] then 0 else (if s[0] <= y then 1 else 0) + CountAtMost(s[1..], y)
  }

  predicate IsSorted(s: seq<int>) {
    forall i, j | 0 <= i <= j < |s| :: s[i] <= s[j]
  }

  function Insert(x: int, s: seq<int>): (r: seq<int>)
    ensures |r| == |s| + 1
  {
    if s == [] || x <= s[0] then [x] + s else [s[0]] + Insert(x, s[1..])
  }

  function Sorted(s: seq<int>): (r: seq<int>)
    ensures |r| == |s|
  {
    if s == [] then [] else Insert(s[0], Sorted(s[1..]))
  }

  lemma {:induction false} InsertedFrom(x: int, s: seq<int>)
    ensures forall y | y in Insert(x, s) :: y == x || y in s
  {
    if s != [] && x > s[0] {
      InsertedFrom(x, s[1..]);
    }
  }

  lemma {:induction false} InsertKeepsSorted(x: int, s: seq<int>)
    requires IsSorted(s)
    ensures IsSorted(Insert(x, s))
  {
    if s != [] && x > s[0] {
      var rest := Insert(x, s[1..]);
      InsertKeepsSorted(x, s[1..]);
      InsertedFrom(x, s[1..]);
      forall i | 0 <= i < |rest|
        ensures s[0] <= rest[i]
      {
        assert rest[i] in rest;
      }
    }
  }

  lemma {:induction false} SortedIsSorted(s: seq<int>)
    ensures IsSorted(Sorted(s))
  {
    if s != [] {
      SortedIsSorted(s[1..]);
      InsertKeepsSorted(s[0], Sorted(s[1..]));
    }
  }

  lemma {:induction false} InsertAddsOne(x: int, s: seq<int>, y: int)
    ensures CountAtMost(Insert(x, s), y) == CountAtMost(s, y) + (if x <= y then 1 else 0)
    ensures y in Insert(x, s) <==> y == x || y in s
  {
    if s != [] && x > s[0] {
      InsertAddsOne(x, s[1..], y);
    }
  }

  /** Sorting moves samples about and changes none. */
  lemma {:induction false} SortingKeepsCounts(s: seq<int>, y: int)
    ensures CountAtMost(Sorted(s), y) == CountAtMost(s, y)
    ensures y in Sorted(s) <==> y in s
  {
    if s != [] {
      SortingKeepsCounts(s[1..], y);
      InsertAddsOne(s[0], Sorted(s[1..]), y);
    }
  }

  /** In sorted samples, position says how many are at or below. */
  lemma {:induction false} CountByPosition(s: seq<int>, k: nat, y: int)
    requires IsSorted(s) && k < |s|
    ensures s[k] <= y ==> CountAtMost(s, y) >= k + 1
    ensures s[k] > y ==> CountAtMost(s, y) <= k
  {
    if k > 0 {
      CountByPosition(s[1..], k - 1, y);
    } else if s[0] > y {
      NoneAtMost(s, y);
    }
  }

  lemma {:induction false} NoneAtMost(s: seq<int>, y: int)
    requires forall i | 0 <= i < |s| :: s[i] > y
    ensures CountAtMost(s, y) == 0
  {
    if s != [] {
      NoneAtMost(s[1..], y);
    }
  }

  // ---------- Nearest rank ----------

  /** `x` is the least sample with at least `percentile` percent of the samples at or below it. */
  ghost predicate IsPercentile(samples: seq<int>, percentile: nat, x: int) {
    && x in samples
    && 100 * CountAtMost(samples, x) >= percentile * |samples|
    && forall y :: y < x ==> 100 * CountAtMost(samples, y) < percentile * |samples|
  }

  function Rank(n: nat, percentile: nat): (rank: nat)
    requires n > 0 && 1 <= percentile <= 100
    ensures 1 <= rank <= n
    ensures 100 * (rank - 1) < percentile * n <= 100 * rank
  {
    RankInRange(n, percentile);
    (percentile * n + 99) / 100
  }

  lemma RankInRange(n: nat, percentile: nat)
    requires n > 0 && 1 <= percentile <= 100
    ensures 1 <= percentile * n <= 100 * n
  {
  }

  /** None stands for the exception the source throws. */
  function NearestRank(sortedSamples: seq<int>, percentile: nat): Option<int> {
    if sortedSamples == [] || percentile == 0 || percentile > 100 then None
    else Some(sortedSamples[Rank(|sortedSamples|, percentile) - 1])
  }

  lemma NearestRankIsPercentile(samples: seq<int>, percentile: nat)
    requires samples != [] && 1 <= percentile <= 100
    ensures NearestRank(Sorted(samples), percentile).Some?
    ensures IsPercentile(samples, percentile, NearestRank(Sorted(samples), percentile).value)
  {
    var sorted, k := Sorted(samples), Rank(|samples|, percentile) - 1;
    var x := sorted[k];
    SortedIsSorted(samples);
    CountByPosition(sorted, k, x);
    SortingKeepsCounts(samples, x);
    forall y | y < x
      ensures 100 * CountAtMost(samples, y) < percentile * |samples|
    {
      CountByPosition(sorted, k, y);
      SortingKeepsCounts(samples, y);
    }
  }

  lemma MultiplyAtMost(a: nat, b: nat, c: nat)
    requires a <= b
    ensures a * c <= b * c
  {
  }

  /** A larger percentile is never smaller. */
  lemma PercentilesAreMonotone(samples: seq<int>, p: nat, q: nat, x: int, y: int)
    requires 1 <= p <= q <= 100 && IsPercentile(samples, p, x) && IsPercentile(samples, q, y)
    ensures x <= y
  {
    MultiplyAtMost(p, q, |samples|);
  }

  /** There is only one. */
  lemma PercentileIsUnique(samples: seq<int>, p: nat, x: int, y: int)
    requires 1 <= p <= 100 && IsPercentile(samples, p, x) && IsPercentile(samples, p, y)
    ensures x == y
  {
  }

  // ---------- Summaries ----------

  /** The integer part of a latency summary; its floating-point mean is left out. */
  datatype LatencyStatistics = LatencyStatistics(
    sampleCount: nat, minimum: int, p50: int, p95: int, p99: int, maximum: int)

  ghost predicate Summarizes(samples: seq<int>, statistics: LatencyStatistics) {
    && statistics.sampleCount == |samples|
    && statistics.minimum in samples && statistics.maximum in samples
    && (forall i | 0 <= i < |samples| :: statistics.minimum <= samples[i] <= statistics.maximum)
    && IsPercentile(samples, 50, statistics.p50) && IsPercentile(samples, 95, statistics.p95)
    && IsPercentile(samples, 99, statistics.p99)
  }

  /** Sorts a copy and reads its ranks; None without samples. */
  method SummarizeLatency(samples: seq<int>) returns (statistics: Option<LatencyStatistics>)
    ensures statistics.None? <==> samples == []
    ensures statistics.Some? ==> Summarizes(samples, statistics.value)
    ensures statistics.Some? ==>
      statistics.value.minimum <= statistics.value.p50 <= statistics.value.p95 <= statistics.value.p99
      <= statistics.value.maximum
  {
    if samples == [] {
      return None;
    }
    var sorted := Sorted(samples);
    NearestRankIsPercentile(samples, 50);
    NearestRankIsPercentile(samples, 95);
    NearestRankIsPercentile(samples, 99);
    var p50, p95, p99 := NearestRank(sorted, 50), NearestRank(sorted, 95), NearestRank(sorted, 99);
    EndsAreExtremes(samples);
    assert forall i | 0 <= i < |samples| :: samples[i] in samples;
    PercentilesAreMonotone(samples, 50, 95, p50.value, p95.value);
    PercentilesAreMonotone(samples, 95, 99, p95.value, p99.value);
    statistics := Some(LatencyStatistics(|samples|, sorted[0], p50.value, p95.value, p99.value, sorted[|sorted| - 1]));
  }

  lemma EndsAreExtremes(samples: seq<int>)
    requires samples != []
    ensures var sorted := Sorted(samples); sorted[0] in samples && sorted[|sorted| - 1] in samples
    ensures forall x | x in samples :: Sorted(samples)[0] <= x <= Sorted(samples)[|samples| - 1]
  {
    var sorted := Sorted(samples);
    SortedIsSorted(samples);
    SortingKeepsCounts(samples, sorted[0]);
    SortingKeepsCounts(samples, sorted[|sorted| - 1]);
    forall x | x in samples
      ensures sorted[0] <= x <= sorted[|samples| - 1]
    {
      SortingKeepsCounts(samples, x);
    }
  }

  /** The signed change of an unsigned counter; None when it does not fit. */
  function SignedDelta(start: uint64, end: uint64): (delta: Option<int64>)
    ensures delta.Some? <==> -INT64_MAX <= end - start <= INT64_MAX
    ensures delta.Some? ==> start + delta.value == end
  {
    var magnitude := if end >= start then end - start else start - end;
    if magnitude > INT64_MAX then None else Some(if end >= start then magnitude else -magnitude)
  }
}
