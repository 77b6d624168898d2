/** The histogram itself: what a snapshot taken at rest says about the values
    recorded, against a reference that sorts them.
 */
module HistogramSpec {
  import opened Fold
  import opened HistogramLayout

  const MAX_INT64 := 0x7FFF_FFFF_FFFF_FFFF
  // The reported percentiles: 0.50, 0.90, 0.95 and 0.99 as exact hundredths.
  const TARGETS: seq<nat> := [50, 90, 95, 99]

  /** Two's-complement wrap-around of the 64-bit atomic counters. */
  function Wrap64(x: int): int {
    (x + 0x8000_0000_0000_0000) % 0x1_0000_0000_0000_0000 - 0x8000_0000_0000_0000
  }

  /** Go's integer division, which truncates toward zero. */
  function TruncDiv(a: int, b: int): int
    requires b > 0
  {
    if a >= 0 then a / b else -(-a / b)
  }

  function Clamped(recorded: seq<int>): (s: seq<nat>)
    ensures |s| == |recorded|
    ensures forall i :: 0 <= i < |s| ==> s[i] == Clamp(recorded[i])
  {
    seq(|recorded|, i requires 0 <= i < |recorded| => Clamp(recorded[i]))
  }

  // ----- counting functions, one sample at a time

  function AtIndex(i: int): nat -> int {
    (v: nat) => if CountsIndex(v) == i then 1 else 0
  }

  function BelowIndex(i: int): nat -> int {
    (v: nat) => if CountsIndex(v) < i then 1 else 0
  }

  function ValueOf(): nat -> int {
    v => v
  }

  function Overflows(): int -> int {
    v => if v > MAX_TRACKABLE then 1 else 0
  }

  ghost predicate IsMin(m: int, s: seq<nat>) {
    && (forall i :: 0 <= i < |s| ==> m <= s[i])
    && (if s == [] then m == MAX_INT64 else exists i :: 0 <= i < |s| && s[i] == m)
  }

  ghost predicate IsMax(m: int, s: seq<nat>) {
    && (forall i :: 0 <= i < |s| ==> s[i] <= m)
    && (if s == [] then m == 0 else exists i :: 0 <= i < |s| && s[i] == m)
  }

  /** counts tallies the samples, bucket by bucket. */
  ghost predicate Tallies(counts: seq<int>, samples: seq<nat>) {
    && |counts| == COUNTS_LENGTH
    && (forall v :: v in samples ==> v <= MAX_TRACKABLE)
    && (forall i :: 0 <= i < |counts| ==> counts[i] == Sum(samples, AtIndex(i)))
  }

  /** counts[0] + ... + counts[k-1] */
  function Cumulative(counts: seq<int>, k: nat): int
    requires k <= |counts|
  {
    if k == 0 then 0 else Cumulative(counts, k - 1) + counts[k - 1]
  }

  /** idx is where the running count first reaches q percent of total. */
  ghost predicate FirstReaching(counts: seq<int>, total: int, q: nat, idx: int) {
    && 0 <= idx < |counts|
    && 100 * Cumulative(counts, idx) < q * total <= 100 * Cumulative(counts, idx + 1)
  }

  /** ceil(q * n / 100) */
  function Rank(q: nat, n: nat): nat {
    (q * n + 99) / 100
  }

  /** The rank is the least whole number of samples that makes q percent. */
  lemma RankIsLeast(q: nat, n: nat, r: nat)
    ensures 100 * r >= q * n <==> r >= Rank(q, n)
  {
  }

  ghost predicate SortedPermutation(sorted: seq<nat>, samples: seq<nat>) {
    && multiset(sorted) == multiset(samples)
    && forall i, j :: 0 <= i < j < |sorted| ==> sorted[i] <= sorted[j]
  }

  // ----- running counts are ranks

  /** The running count over the buckets counts the samples below a bucket. */
  lemma {:induction false} CumulativeIsRank(counts: seq<int>, samples: seq<nat>, k: nat)
    requires Tallies(counts, samples) && k <= |counts|
    ensures Cumulative(counts, k) == Sum(samples, BelowIndex(k))
  {
    if k == 0 {
      forall i | 0 <= i < |samples| ensures BelowIndex(0)(samples[i]) == 0 {
        assert samples[i] in samples;
        CountsIndexInBounds(samples[i]);
      }
      SumZero(samples, BelowIndex(0));
    } else {
      CumulativeIsRank(counts, samples, k - 1);
      SumAdd(samples, BelowIndex(k - 1), AtIndex(k - 1), BelowIndex(k));
    }
  }

  /** Every sample is in some bucket. */
  lemma CumulativeAll(counts: seq<int>, samples: seq<nat>)
    requires Tallies(counts, samples)
    ensures Cumulative(counts, |counts|) == |samples|
  {
    CumulativeIsRank(counts, samples, |counts|);
    hide CountsIndex;
    forall i | 0 <= i < |samples| ensures BelowIndex(|counts|)(samples[i]) == 1 {
      assert samples[i] in samples;
      CountsIndexInBounds(samples[i]);
    }
    SumOnes(samples, BelowIndex(|counts|));
  }

  /** A sum does not depend on the order of its terms. */
  lemma {:induction false} SumPermutation(s: seq<nat>, t: seq<nat>, f: nat -> int)
    requires multiset(s) == multiset(t)
    ensures Sum(s, f) == Sum(t, f)
  {
    if s == [] {
      assert |multiset(t)| == |t|;
    } else {
      var x := s[|s| - 1];
      assert s == s[..|s| - 1] + [x];
      assert x in multiset(t);
      var k :| 0 <= k < |t| && t[k] == x;
      var rest := t[..k] + t[k + 1..];
      assert t == t[..k] + [x] + t[k + 1..];
      assert multiset(rest) == multiset(t) - multiset{x};
      assert multiset(s[..|s| - 1]) == multiset(s) - multiset{x};
      SumPermutation(s[..|s| - 1], rest, f);
      SumRemove(t, k, f);
    }
  }

  lemma SumConcat(s: seq<nat>, t: seq<nat>, f: nat -> int)
    ensures Sum(s + t, f) == Sum(s, f) + Sum(t, f)
  {
    if t == [] {
      assert s + t == s;
    } else {
      assert (s + t)[..|s + t| - 1] == s + t[..|t| - 1];
      SumConcat(s, t[..|t| - 1], f);
    }
  }

  lemma SumRemove(t: seq<nat>, k: nat, f: nat -> int)
    requires k < |t|
    ensures Sum(t, f) == Sum(t[..k] + t[k + 1..], f) + f(t[k])
  {
    hide Sum;
    assert t == t[..k] + [t[k]] + t[k + 1..];
    SumConcat(t[..k] + [t[k]], t[k + 1..], f);
    SumAppend(t[..k], t[k], f);
    SumConcat(t[..k], t[k + 1..], f);
  }

  /** In a sorted sequence, at least r samples fall at or below the bucket of
      the r-th, and fewer than r fall strictly below it. */
  lemma RankBracket(sorted: seq<nat>, r: nat)
    requires forall i, j :: 0 <= i < j < |sorted| ==> sorted[i] <= sorted[j]
    requires 1 <= r <= |sorted|
    ensures var idx := CountsIndex(sorted[r - 1]);
            Sum(sorted, BelowIndex(idx)) < r <= Sum(sorted, BelowIndex(idx + 1))
  {
    hide CountsIndex;
    var idx := CountsIndex(sorted[r - 1]);
    forall i | 0 <= i < |sorted|
      ensures i < r ==> CountsIndex(sorted[i]) < idx + 1
      ensures i >= r - 1 ==> CountsIndex(sorted[i]) >= idx
    {
      if i < r - 1 {
        CountsIndexMonotone(sorted[i], sorted[r - 1]);
      } else if i > r - 1 {
        CountsIndexMonotone(sorted[r - 1], sorted[i]);
      }
    }
    SumAtLeastPrefix(sorted, r, BelowIndex(idx + 1));
    SumAtMostPrefix(sorted, r - 1, BelowIndex(idx));
  }

  lemma SumAtLeastPrefix(s: seq<nat>, r: nat, f: nat -> int)
    requires r <= |s|
    requires forall i :: 0 <= i < r ==> f(s[i]) == 1
    requires forall i :: 0 <= i < |s| ==> 0 <= f(s[i])
    ensures Sum(s, f) >= r
  {
    assert s == s[..r] + s[r..];
    SumConcat(s[..r], s[r..], f);
    SumOnes(s[..r], f);
    SumNonNegative(s[r..], f);
  }

  lemma SumAtMostPrefix(s: seq<nat>, r: nat, f: nat -> int)
    requires r <= |s|
    requires forall i :: r <= i < |s| ==> f(s[i]) == 0
    requires forall i :: 0 <= i < |s| ==> f(s[i]) <= 1
    ensures Sum(s, f) <= r
  {
    assert s == s[..r] + s[r..];
    SumConcat(s[..r], s[r..], f);
    SumAtMostLength(s[..r], f);
    SumZero(s[r..], f);
  }

  lemma RankInRange(q: nat, n: nat)
    requires 0 < q <= 100 && n > 0
    ensures 1 <= Rank(q, n) <= n
  {
    assert q * n <= 100 * n;
    assert 1 <= q * n;
  }

  lemma RankMonotone(q: nat, p: nat, n: nat)
    requires q <= p
    ensures Rank(q, n) <= Rank(p, n)
  {
    MulMonotone(q, p, n);
  }

  /** The scan stops in the bucket of the sample the sorted reference ranks:
      at a bucket idx exactly when idx is the bucket of the sample of rank
      ceil(q * n / 100). */
  lemma FirstReachingIsRankedSample(counts: seq<int>, samples: seq<nat>, sorted: seq<nat>, q: nat, idx: int)
    requires Tallies(counts, samples) && SortedPermutation(sorted, samples)
    requires samples != [] && 0 < q <= 100
    ensures |sorted| == |samples| && 1 <= Rank(q, |samples|) <= |sorted|
    ensures FirstReaching(counts, |samples|, q, idx) <==> idx == CountsIndex(sorted[Rank(q, |samples|) - 1])
  {
    hide CountsIndex;
    SortedSameLength(sorted, samples);
    RankInRange(q, |samples|);
    var at := CountsIndex(sorted[Rank(q, |samples|) - 1]);
    RankedSampleIsReached(counts, samples, sorted, q);
    if FirstReaching(counts, |samples|, q, idx) {
      FirstReachingUnique(counts, samples, |samples|, q, idx, at);
    }
  }

  lemma SortedSameLength(sorted: seq<nat>, samples: seq<nat>)
    requires multiset(sorted) == multiset(samples)
    ensures |sorted| == |samples|
  {
    assert |multiset(sorted)| == |sorted| && |multiset(samples)| == |samples|;
  }

  lemma RankedSampleIsReached(counts: seq<int>, samples: seq<nat>, sorted: seq<nat>, q: nat)
    requires Tallies(counts, samples) && SortedPermutation(sorted, samples)
    requires |sorted| == |samples| > 0 && 0 < q <= 100
    requires 1 <= Rank(q, |samples|) <= |samples|
    ensures FirstReaching(counts, |samples|, q, CountsIndex(sorted[Rank(q, |samples|) - 1]))
  {
    hide CountsIndex;
    var r := Rank(q, |samples|);
    var x := sorted[r - 1];
    var at := CountsIndex(x);
    assert x in multiset(sorted);
    assert x in samples;
    CountsIndexInBounds(x);
    RankBracket(sorted, r);
    SumPermutation(sorted, samples, BelowIndex(at));
    SumPermutation(sorted, samples, BelowIndex(at + 1));
    CumulativeIsRank(counts, samples, at);
    CumulativeIsRank(counts, samples, at + 1);
  }

  lemma FirstReachingUnique(counts: seq<int>, samples: seq<nat>, total: int, q: nat, i: int, j: int)
    requires Tallies(counts, samples)
    requires FirstReaching(counts, total, q, i) && FirstReaching(counts, total, q, j)
    ensures i == j
  {
    forall k | 0 <= k < |counts| ensures counts[k] >= 0 {
      SumNonNegative(samples, AtIndex(k));
    }
    if i < j {
      CumulativeMonotone(counts, i + 1, j);
    } else if j < i {
      CumulativeMonotone(counts, j + 1, i);
    }
  }

  lemma CumulativeMonotone(counts: seq<int>, i: nat, j: nat)
    requires i <= j <= |counts|
    requires forall k :: 0 <= k < |counts| ==> counts[k] >= 0
    ensures Cumulative(counts, i) <= Cumulative(counts, j)
  {
    if i < j {
      CumulativeMonotone(counts, i, j - 1);
    }
  }

  // ----- what the percentiles promise

  /** The value reported for q percent of the samples. */
  function Percentile(sorted: seq<nat>, q: nat): nat
    requires sorted != [] && 0 < q <= 100
  {
    RankInRange(q, |sorted|);
    ValueInItsBucket(sorted[Rank(q, |sorted|) - 1]);
    HighestEquivalent(CountsIndex(sorted[Rank(q, |sorted|) - 1]))
  }

  /** A reported percentile is never below the ranked sample and at most
      1/1024 of it above. */
  lemma PercentileBounds(sorted: seq<nat>, q: nat)
    requires sorted != [] && 0 < q <= 100
    ensures 1 <= Rank(q, |sorted|) <= |sorted|
    ensures var x := sorted[Rank(q, |sorted|) - 1];
            x <= Percentile(sorted, q) && 1024 * (Percentile(sorted, q) - x) <= x
  {
    RankInRange(q, |sorted|);
    UpperBoundError(sorted[Rank(q, |sorted|) - 1]);
  }

  /** Higher percentiles are never reported lower. */
  lemma PercentilesOrdered(sorted: seq<nat>, q: nat, p: nat)
    requires sorted != [] && 0 < q <= p <= 100
    requires forall i, j :: 0 <= i < j < |sorted| ==> sorted[i] <= sorted[j]
    ensures Percentile(sorted, q) <= Percentile(sorted, p)
  {
    hide CountsIndex, HighestEquivalent;
    var n := |sorted|;
    RankInRange(q, n);
    RankInRange(p, n);
    RankMonotone(q, p, n);
    var x, y := sorted[Rank(q, n) - 1], sorted[Rank(p, n) - 1];
    CountsIndexMonotone(x, y);
    ValueInItsBucket(x);
    ValueInItsBucket(y);
    HighestEquivalentMonotone(CountsIndex(x), CountsIndex(y));
  }

  /** A percentile may exceed the exact maximum. It does not exactly when the
      ranked sample has an earlier bucket than the maximum, or the maximum is
      itself the top of its bucket. */
  lemma PercentileAtMostMax(sorted: seq<nat>, q: nat, max: nat)
    requires sorted != [] && 0 < q <= 100
    requires forall i, j :: 0 <= i < j < |sorted| ==> sorted[i] <= sorted[j]
    requires max == sorted[|sorted| - 1]
    ensures 1 <= Rank(q, |sorted|) <= |sorted| && CountsIndex(max) >= 0
    ensures Percentile(sorted, q) <= max <==>
            || CountsIndex(sorted[Rank(q, |sorted|) - 1]) < CountsIndex(max)
            || max == HighestEquivalent(CountsIndex(max))
  {
    hide CountsIndex, ValueAt, HighestEquivalent;
    RankInRange(q, |sorted|);
    var x := sorted[Rank(q, |sorted|) - 1];
    ValueInItsBucket(x);
    ValueInItsBucket(max);
    CountsIndexMonotone(x, max);
    if CountsIndex(x) < CountsIndex(max) {
      HighestEquivalentMonotone(CountsIndex(x), CountsIndex(max) - 1);
      BucketsTile(CountsIndex(max) - 1);
    }
  }

  /** One sample of 4096 ns: every percentile reads 4099, above the maximum. */
  lemma PercentileAboveMaxExample()
    ensures Percentile([4096], 99) > 4096
  {
    UpperBoundErrorExample();
    assert Rank(99, 1) == 1;
  }

  /** The mean a snapshot reports of these values. */
  function ReportedMean(recorded: seq<int>): int
    requires recorded != []
  {
    TruncDiv(Wrap64(Sum(Clamped(recorded), ValueOf())), |recorded|)
  }

  /** The mean is exact until the 64-bit sum of the recorded values wraps, and
      wrong from then on. */
  lemma MeanExactUntilWrap(recorded: seq<int>)
    requires 0 < |recorded| <= MAX_INT64
    ensures var sum := Sum(Clamped(recorded), ValueOf());
            ReportedMean(recorded) == sum / |recorded| <==> sum <= MAX_INT64
  {
    hide Sum;
    SumNonNegative(Clamped(recorded), ValueOf());
    TruncatedUntilWrap(|recorded|, Sum(Clamped(recorded), ValueOf()));
  }

  lemma TruncatedUntilWrap(total: nat, trueSum: nat)
    requires 0 < total <= MAX_INT64
    ensures TruncDiv(Wrap64(trueSum), total) == trueSum / total <==> trueSum <= MAX_INT64
  {
    if trueSum > MAX_INT64 {
      var wrapped := Wrap64(trueSum);
      assert wrapped <= trueSum - 0x1_0000_0000_0000_0000;
      if wrapped >= 0 {
        QuotientGap(wrapped, trueSum, total);
      } else {
        QuotientGap(0, trueSum, total);
      }
    }
  }

  /** n samples of one hour or more, which a run within the largest configurable
      cap can record. */
  function Hours(n: nat): (recorded: seq<int>)
    ensures |recorded| == n
  {
    seq(n, i requires 0 <= i => MAX_TRACKABLE)
  }

  lemma {:induction false} SumOfHours(n: nat)
    ensures Sum(Clamped(Hours(n)), ValueOf()) == n * MAX_TRACKABLE
  {
    if n > 0 {
      SumOfHours(n - 1);
      assert Clamped(Hours(n)) == Clamped(Hours(n - 1)) + [MAX_TRACKABLE];
      SumAppend(Clamped(Hours(n - 1)), MAX_TRACKABLE, ValueOf());
    }
  }

  const LEAST_WRAPPING := 2_562_048

  /** That many samples of an hour wrap the sum, and one fewer does not: their
      mean is then reported as negative. */
  lemma MeanWrapsExample()
    ensures ReportedMean(Hours(LEAST_WRAPPING)) < 0 < Sum(Clamped(Hours(LEAST_WRAPPING)), ValueOf()) / LEAST_WRAPPING
    ensures ReportedMean(Hours(LEAST_WRAPPING - 1)) == MAX_TRACKABLE
  {
    hide Sum, Clamped, Hours;
    SumOfHours(LEAST_WRAPPING);
    SumOfHours(LEAST_WRAPPING - 1);
  }

  lemma QuotientGap(a: nat, b: nat, d: nat)
    requires d > 0 && a + d <= b
    ensures a / d < b / d
  {
    var p, r := a / d, b / d;
    assert p * d <= a && b < (r + 1) * d;
    assert (p + 1) * d == p * d + d;
    if r <= p {
      MulMonotone(r + 1, p + 1, d);
    }
  }
}

module Histogram {
  import opened Fold
  import opened HistogramLayout
  import opened HistogramSpec

  datatype Snapshot = Snapshot(
    count: int, overflows: int, min: int, max: int, mean: int,
    p50: int, p90: int, p95: int, p99: int)

  /** The histogram's fields are the summary of the values recorded. */
  ghost predicate Represents(
    counts: seq<int>, total: int, sum: int, min: int, max: int, overflow: int, recorded: seq<int>)
  {
    && Tallies(counts, Clamped(recorded))
    && total == |recorded|
    && sum == Wrap64(Sum(Clamped(recorded), ValueOf()))
    && IsMin(min, Clamped(recorded))
    && IsMax(max, Clamped(recorded))
    && overflow == Sum(recorded, Overflows())
  }

  /** No value is negative or longer than an hour. */
  ghost predicate InRange(recorded: seq<int>) {
    forall i :: 0 <= i < |recorded| ==> 0 <= recorded[i] <= 3_600_000_000_000
  }

  /** A reported percentile is at or above the sample that at least q percent of
      the values do not exceed and fewer than q percent fall short of, by at most
      1/1024 of it. */
  ghost predicate PercentileOf(reported: int, sorted: seq<int>, q: nat) {
    exists r :: 1 <= r <= |sorted| && 100 * (r - 1) < q * |sorted| <= 100 * r
                && sorted[r - 1] <= reported && 1024 * (reported - sorted[r - 1]) <= sorted[r - 1]
  }

  function Itself(): int -> int {
    v => v
  }

  /** What the snapshot says of the values themselves. */
  ghost predicate DescribesExactly(s: Snapshot, recorded: seq<int>)
    requires recorded != []
  {
    && s.min in recorded && s.max in recorded
    && (forall i :: 0 <= i < |recorded| ==> s.min <= recorded[i] <= s.max)
    && s.count == |recorded| && s.overflows == 0
    && (Sum(recorded, Itself()) <= 0x7FFF_FFFF_FFFF_FFFF ==> s.mean == Sum(recorded, Itself()) / |recorded|)
    && forall sorted: seq<int> ::
         multiset(sorted) == multiset(recorded) && (forall i, j :: 0 <= i < j < |sorted| ==> sorted[i] <= sorted[j]) ==>
           && PercentileOf(s.p50, sorted, 50) && PercentileOf(s.p90, sorted, 90)
           && PercentileOf(s.p95, sorted, 95) && PercentileOf(s.p99, sorted, 99)
  }

  class Histogram {
    const counts: array<int>
    var total: int
    var sum: int
    var min: int
    var max: int
    var overflow: int
    // Every value passed to Record, in order.
    ghost var recorded: seq<int>

    ghost predicate Valid()
      reads this, counts
    {
      Represents(counts[..], total, sum, min, max, overflow, recorded)
    }

    /** NewHistogram: the doubling loop finds the 32 buckets that reach an hour. */
    constructor ()
      ensures Valid() && fresh(counts)
      ensures recorded == []
    {
      var bucketCount := 1;
      var smallestUntrackable := SUB_BUCKET_COUNT;
      Pow2Values();
      Pow2Add(11, 30);
      Pow2Add(11, 31);
      while smallestUntrackable < MAX_TRACKABLE
        invariant 1 <= bucketCount <= BUCKET_COUNT
        invariant smallestUntrackable == SUB_BUCKET_COUNT * Pow2(bucketCount - 1)
        decreases BUCKET_COUNT - bucketCount
      {
        if bucketCount == BUCKET_COUNT {
          assert false;
        }
        smallestUntrackable := smallestUntrackable * 2;
        bucketCount := bucketCount + 1;
      }
      EnoughBuckets(bucketCount);
      counts := new int[(bucketCount + 1) * HALF_COUNT](_ => 0);
      total, sum, min, max, overflow := 0, 0, MAX_INT64, 0, 0;
      recorded := [];
    }

    /** Files one value; negative values count as zero, values beyond an hour
        are clamped and counted as overflows. The compare-and-swap loops on min
        and max are uncontended here; HistogramRace has them contended. */
    method Record(value: int)
      requires Valid()
      modifies this, counts
      ensures Valid()
      ensures recorded == old(recorded) + [value]
    {
      hide CountsIndex, Represents, Wrap64;
      var v := value;
      if v < 0 {
        v := 0;
      }
      if v > MAX_TRACKABLE {
        overflow := overflow + 1;
        v := MAX_TRACKABLE;
      }
      CountsIndexInBounds(v);
      SummaryFields(counts[..], total, sum, min, max, old(overflow), recorded);
      var idx := CountsIndex(v);
      counts[idx] := counts[idx] + 1;
      total := total + 1;
      sum := Wrap64(sum + v);
      if v < min {
        min := v;
      }
      if v > max {
        max := v;
      }
      RecordRepresents(
        old(counts[..]), old(total), old(sum), old(min), old(max), old(overflow), recorded, value);
      recorded := recorded + [value];
    }

    /** Summarises everything recorded so far in one pass over the buckets. */
    method TakeSnapshot() returns (s: Snapshot)
      requires Valid()
      ensures s.count == |recorded| && s.overflows == Sum(recorded, Overflows())
      ensures recorded == [] ==> s == Snapshot(0, s.overflows, 0, 0, 0, 0, 0, 0, 0)
      ensures recorded != [] ==>
                && IsMin(s.min, Clamped(recorded))
                && IsMax(s.max, Clamped(recorded))
                && s.mean == ReportedMean(recorded)
      ensures recorded != [] && InRange(recorded) ==> DescribesExactly(s, recorded)
      ensures forall sorted :: recorded != [] && SortedPermutation(sorted, Clamped(recorded)) ==>
                && |sorted| == |recorded|
                && s.p50 == Percentile(sorted, 50)
                && s.p90 == Percentile(sorted, 90)
                && s.p95 == Percentile(sorted, 95)
                && s.p99 == Percentile(sorted, 99)
    {
      hide CountsIndex, HighestEquivalent, Percentile, Wrap64, ScanState, Tallies, Reaches;
      hide Represents, SortedPermutation, IsMin, IsMax, TruncDiv;
      SummaryFields(counts[..], total, sum, min, max, overflow, recorded);
      if total == 0 {
        return Snapshot(0, overflow, 0, 0, 0, 0, 0, 0, 0);
      }
      var out := [0, 0, 0, 0];
      var next := 0;
      var cumulative := 0;
      ghost var all := counts[..];
      assert ScanState(all, total, 0, 0, out) by {
        InitialScan(all, total, out);
      }
      for idx := 0 to counts.Length
        invariant |out| == 4 && 0 <= next <= 4
        invariant cumulative == Cumulative(all, idx)
        invariant ScanState(all, total, next, cumulative, out)
      {
        var c := counts[idx];
        if c == 0 {
          continue;
        }
        cumulative := cumulative + c;
        while next < 4 && Reaches(cumulative, TARGETS[next], total)
          invariant |out| == 4 && 0 <= next <= 4
          invariant ScanState(all, total, next, cumulative - c, out)
          decreases 4 - next
        {
          SettleTarget(all, total, next, idx, out);
          out := out[next := HighestEquivalent(idx)];
          next := next + 1;
        }
        TargetsAscend(all, total, next, cumulative, out);
        if next == 4 {
          break;
        }
      }
      // The fallback for targets the scan left unset; ScanSettles shows there are none.
      ghost var settled, scanned := next, out;
      while next < 4
        invariant settled <= next <= 4 && |out| == 4
        invariant out[..settled] == scanned[..settled]
      {
        out := out[next := max];
        next := next + 1;
      }
      ScanSettles(all, Clamped(recorded), settled, cumulative, scanned);
      assert out == out[..settled];
      s := Snapshot(total, overflow, min, max, TruncDiv(sum, total), out[0], out[1], out[2], out[3]);
      SnapshotDescribes(s, recorded);
    }
  }

  /** Where the percentile scan stands: targets below next are settled, the
      running count has not reached the others. */
  predicate Reaches(cumulative: int, q: nat, total: int) {
    100 * cumulative >= q * total
  }

  ghost predicate ScanState(counts: seq<int>, total: int, next: int, cumulative: int, out: seq<int>) {
    && |out| == 4 && 0 <= next <= 4
    && (forall t :: next <= t < 4 ==> !Reaches(cumulative, TARGETS[t], total))
    && (forall t :: 0 <= t < next ==> Reported(counts, total, TARGETS[t], out[t]))
  }

  lemma EnoughBuckets(bucketCount: nat)
    requires 1 <= bucketCount <= BUCKET_COUNT
    requires SUB_BUCKET_COUNT * Pow2(bucketCount - 1) >= MAX_TRACKABLE
    ensures bucketCount == BUCKET_COUNT
  {
    Pow2Values();
    if bucketCount < BUCKET_COUNT {
      Pow2Monotone(bucketCount - 1, 30);
    }
  }

  ghost predicate Reported(counts: seq<int>, total: int, q: nat, value: int) {
    exists idx :: FirstReaching(counts, total, q, idx) && value == HighestEquivalent(idx)
  }

  lemma InitialScan(counts: seq<int>, total: int, out: seq<int>)
    requires total > 0 && |out| == 4
    ensures ScanState(counts, total, 0, 0, out)
  {
  }

  lemma SettleTarget(counts: seq<int>, total: int, next: nat, idx: nat, out: seq<int>)
    requires idx < |counts| && next < 4
    requires ScanState(counts, total, next, Cumulative(counts, idx), out)
    requires Reaches(Cumulative(counts, idx + 1), TARGETS[next], total)
    ensures ScanState(counts, total, next + 1, Cumulative(counts, idx), out[next := HighestEquivalent(idx)])
  {
    hide HighestEquivalent;
    assert FirstReaching(counts, total, TARGETS[next], idx);
  }

  lemma TargetsAscend(counts: seq<int>, total: int, next: nat, cumulative: int, out: seq<int>)
    requires next <= 4 && total > 0
    requires next < 4 ==> !Reaches(cumulative, TARGETS[next], total)
    requires exists c :: ScanState(counts, total, next, c, out)
    ensures ScanState(counts, total, next, cumulative, out)
  {
    forall t | next <= t < 4 ensures !Reaches(cumulative, TARGETS[t], total) {
      MulMonotone(TARGETS[next], TARGETS[t], total);
    }
  }

  /** A running count of the whole total reaches every target. */
  lemma AllReached(cumulative: int, total: nat)
    ensures cumulative >= total ==> forall t :: 0 <= t < 4 ==> Reaches(cumulative, TARGETS[t], total)
  {
    forall t | 0 <= t < 4 ensures cumulative >= total ==> Reaches(cumulative, TARGETS[t], total) {
      MulMonotone(TARGETS[t], 100, total);
    }
  }

  /** A finished scan, or one that broke off early, has settled all four
      percentiles, each on the sample the sorted reference ranks. */
  lemma ScanSettles(counts: seq<int>, samples: seq<nat>, next: nat, cumulative: int, out: seq<int>)
    requires Tallies(counts, samples) && samples != []
    requires ScanState(counts, |samples|, next, cumulative, out)
    requires next == 4 || cumulative == Cumulative(counts, |counts|)
    ensures next == 4
    ensures forall sorted :: SortedPermutation(sorted, samples) ==>
              && |sorted| == |samples|
              && out[0] == Percentile(sorted, 50)
              && out[1] == Percentile(sorted, 90)
              && out[2] == Percentile(sorted, 95)
              && out[3] == Percentile(sorted, 99)
  {
    hide CountsIndex, HighestEquivalent, Percentile, Tallies, Reaches;
    CumulativeAll(counts, samples);
    AllReached(|samples|, |samples|);
    forall sorted | SortedPermutation(sorted, samples)
      ensures |sorted| == |samples|
      ensures out[0] == Percentile(sorted, 50)
      ensures out[1] == Percentile(sorted, 90)
      ensures out[2] == Percentile(sorted, 95)
      ensures out[3] == Percentile(sorted, 99)
    {
      ReportedIsPercentile(counts, samples, sorted, TARGETS[0], out[0]);
      ReportedIsPercentile(counts, samples, sorted, TARGETS[1], out[1]);
      ReportedIsPercentile(counts, samples, sorted, TARGETS[2], out[2]);
      ReportedIsPercentile(counts, samples, sorted, TARGETS[3], out[3]);
    }
  }

  lemma ReportedIsPercentile(counts: seq<int>, samples: seq<nat>, sorted: seq<nat>, q: nat, value: int)
    requires Tallies(counts, samples) && SortedPermutation(sorted, samples)
    requires samples != [] && 0 < q <= 100
    requires Reported(counts, |samples|, q, value)
    ensures |sorted| == |samples| && value == Percentile(sorted, q)
  {
    var idx :| FirstReaching(counts, |samples|, q, idx) && value == HighestEquivalent(idx);
    FirstReachingIsRankedSample(counts, samples, sorted, q, idx);
  }

  lemma SummaryFields(
    counts: seq<int>, total: int, sum: int, min: int, max: int, overflow: int, recorded: seq<int>)
    requires Represents(counts, total, sum, min, max, overflow, recorded)
    ensures |counts| == COUNTS_LENGTH && Tallies(counts, Clamped(recorded))
    ensures total == |recorded| && sum == Wrap64(Sum(Clamped(recorded), ValueOf()))
    ensures IsMin(min, Clamped(recorded)) && IsMax(max, Clamped(recorded))
    ensures overflow == Sum(recorded, Overflows())
  {
  }

  /** The updates Record makes, taken together, add one value to the summary. */
  lemma RecordRepresents(
    counts: seq<int>, total: int, sum: int, min: int, max: int, overflow: int, recorded: seq<int>, value: int)
    requires Represents(counts, total, sum, min, max, overflow, recorded)
    ensures var v := Clamp(value);
            && 0 <= CountsIndex(v) < |counts|
            && Represents(
                 counts[CountsIndex(v) := counts[CountsIndex(v)] + 1],
                 total + 1,
                 Wrap64(sum + v),
                 if v < min then v else min,
                 if v > max then v else max,
                 if value > MAX_TRACKABLE then overflow + 1 else overflow,
                 recorded + [value])
  {
    hide CountsIndex, Wrap64;
    var v := Clamp(value);
    var samples := Clamped(recorded);
    assert Clamped(recorded + [value]) == samples + [v];
    CountsIndexInBounds(v);
    RecordTallies(counts, counts[CountsIndex(v) := counts[CountsIndex(v)] + 1], samples, v);
    SumAppend(samples, v, ValueOf());
    SumAppend(recorded, value, Overflows());
    WrapAdd(Sum(samples, ValueOf()), v);
    MinAppend(min, samples, v);
    MaxAppend(max, samples, v);
  }

  /** Bumping one bucket tallies one more sample. */
  lemma RecordTallies(before: seq<int>, after: seq<int>, samples: seq<nat>, v: nat)
    requires Tallies(before, samples) && v <= MAX_TRACKABLE
    requires 0 <= CountsIndex(v) < |before|
    requires after == before[CountsIndex(v) := before[CountsIndex(v)] + 1]
    ensures Tallies(after, samples + [v])
  {
    forall i | 0 <= i < |after| ensures after[i] == Sum(samples + [v], AtIndex(i)) {
      SumAppend(samples, v, AtIndex(i));
    }
  }

  lemma WrapAdd(x: int, v: int)
    ensures Wrap64(Wrap64(x) + v) == Wrap64(x + v)
  {
  }

  lemma MinAppend(m: int, s: seq<nat>, v: nat)
    requires IsMin(m, s) && v <= MAX_TRACKABLE
    ensures IsMin(if v < m then v else m, s + [v])
  {
    var t := s + [v];
    assert t[|s|] == v;
    if s != [] {
      var i :| 0 <= i < |s| && s[i] == m;
      assert t[i] == m;
    }
  }

  lemma MaxAppend(m: int, s: seq<nat>, v: nat)
    requires IsMax(m, s)
    ensures IsMax(if v > m then v else m, s + [v])
  {
    var t := s + [v];
    assert t[|s|] == v;
    if s != [] {
      var i :| 0 <= i < |s| && s[i] == m;
      assert t[i] == m;
    }
  }

  // ----- values in range are reported as they are

  lemma InRangeUnclamped(recorded: seq<int>)
    requires InRange(recorded)
    ensures |Clamped(recorded)| == |recorded|
    ensures forall i :: 0 <= i < |recorded| ==> Clamped(recorded)[i] == recorded[i]
    ensures Sum(recorded, Overflows()) == 0
  {
    forall i | 0 <= i < |recorded| ensures Clamp(recorded[i]) == recorded[i] {
      ClampExact(recorded[i]);
    }
    SumZero(recorded, Overflows());
  }

  /** A percentile of the clamped samples, found by sorting the values. */
  lemma PercentileDescribes(reported: int, sorted: seq<int>, samples: seq<nat>, q: nat)
    requires |sorted| == |samples| > 0 && 0 < q <= 100
    requires forall i :: 0 <= i < |sorted| ==> sorted[i] == samples[i]
    requires reported == Percentile(samples, q)
    ensures PercentileOf(reported, sorted, q)
  {
    hide Percentile;
    PercentileBounds(samples, q);
    var r := Rank(q, |samples|);
    RankIsLeast(q, |samples|, r);
    RankIsLeast(q, |samples|, r - 1);
    hide Rank;
    assert sorted[r - 1] == samples[r - 1];
  }

  lemma SnapshotDescribes(s: Snapshot, recorded: seq<int>)
    requires recorded != [] && s.overflows == Sum(recorded, Overflows())
    requires s.count == |recorded| && s.mean == ReportedMean(recorded)
    requires IsMin(s.min, Clamped(recorded)) && IsMax(s.max, Clamped(recorded))
    requires forall sorted :: SortedPermutation(sorted, Clamped(recorded)) ==>
               && |sorted| == |recorded|
               && s.p50 == Percentile(sorted, 50)
               && s.p90 == Percentile(sorted, 90)
               && s.p95 == Percentile(sorted, 95)
               && s.p99 == Percentile(sorted, 99)
    ensures InRange(recorded) ==> DescribesExactly(s, recorded)
  {
    if InRange(recorded) {
      InRangeUnclamped(recorded);
      MeanDescribes(recorded);
      hide InRange, Clamped, ReportedMean, Percentile, SortedPermutation, PercentileOf, Sum;
      Extremes(s.min, s.max, recorded);
      forall sorted: seq<int> | multiset(sorted) == multiset(recorded)
                                && forall i, j :: 0 <= i < j < |sorted| ==> sorted[i] <= sorted[j]
        ensures PercentileOf(s.p50, sorted, 50) && PercentileOf(s.p90, sorted, 90)
        ensures PercentileOf(s.p95, sorted, 95) && PercentileOf(s.p99, sorted, 99)
      {
        var samples := SortedSamples(sorted, recorded);
        PercentileDescribes(s.p50, sorted, samples, 50);
        PercentileDescribes(s.p90, sorted, samples, 90);
        PercentileDescribes(s.p95, sorted, samples, 95);
        PercentileDescribes(s.p99, sorted, samples, 99);
      }
    }
  }

  lemma MeanDescribes(recorded: seq<int>)
    requires recorded != [] && InRange(recorded)
    ensures Sum(recorded, Itself()) <= MAX_INT64 ==> ReportedMean(recorded) == Sum(recorded, Itself()) / |recorded|
  {
    InRangeUnclamped(recorded);
    SameSum(Clamped(recorded), recorded);
    SumNonNegative(recorded, Itself());
    hide Sum;
  }

  lemma {:induction false} SameSum(s: seq<nat>, x: seq<int>)
    requires |s| == |x| && forall i :: 0 <= i < |s| ==> s[i] == x[i]
    ensures Sum(s, ValueOf()) == Sum(x, Itself())
  {
    if s != [] {
      SameSum(s[..|s| - 1], x[..|x| - 1]);
    }
  }

  lemma Extremes(min: int, max: int, recorded: seq<int>)
    requires recorded != [] && IsMin(min, Clamped(recorded)) && IsMax(max, Clamped(recorded))
    requires forall i :: 0 <= i < |recorded| ==> Clamped(recorded)[i] == recorded[i]
    ensures min in recorded && max in recorded
    ensures forall i :: 0 <= i < |recorded| ==> min <= recorded[i] <= max
  {
    hide Clamped;
    var samples := Clamped(recorded);
    forall i | 0 <= i < |recorded| ensures min <= recorded[i] <= max {
      assert samples[i] == recorded[i];
    }
  }

  /** The values in order are the clamped samples in order. */
  lemma SortedSamples(sorted: seq<int>, recorded: seq<int>) returns (samples: seq<nat>)
    requires multiset(sorted) == multiset(recorded)
    requires forall i, j :: 0 <= i < j < |sorted| ==> sorted[i] <= sorted[j]
    requires |Clamped(recorded)| == |recorded| && forall i :: 0 <= i < |recorded| ==> Clamped(recorded)[i] == recorded[i]
    ensures |samples| == |sorted| == |recorded| && SortedPermutation(samples, Clamped(recorded))
    ensures forall i :: 0 <= i < |sorted| ==> sorted[i] == samples[i]
  {
    hide Clamped;
    assert |multiset(sorted)| == |sorted| && |multiset(recorded)| == |recorded|;
    forall i | 0 <= i < |sorted| ensures sorted[i] >= 0 {
      assert sorted[i] in multiset(recorded);
    }
    samples := seq(|sorted|, i requires 0 <= i < |sorted| => sorted[i] as nat);
    SameMultiset(samples, sorted, Clamped(recorded), recorded);
  }

  lemma SameMultiset(s: seq<nat>, x: seq<int>, t: seq<nat>, y: seq<int>)
    requires |s| == |x| && |t| == |y| && multiset(x) == multiset(y)
    requires forall i :: 0 <= i < |s| ==> s[i] == x[i]
    requires forall i :: 0 <= i < |t| ==> t[i] == y[i]
    ensures multiset(s) == multiset(t)
  {
    forall v: nat ensures multiset(s)[v] == multiset(t)[v] {
      SameCount(s, x, v);
      SameCount(t, y, v);
    }
  }

  lemma {:induction false} SameCount(s: seq<nat>, x: seq<int>, v: nat)
    requires |s| == |x| && forall i :: 0 <= i < |s| ==> s[i] == x[i]
    ensures multiset(s)[v] == multiset(x)[v]
  {
    if s != [] {
      var n := |s| - 1;
      SameCount(s[..n], x[..n], v);
      assert s == s[..n] + [s[n]] && x == x[..n] + [x[n]];
    }
  }
}
