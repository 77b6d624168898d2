/** Any number of Record calls racing one Snapshot scan.

    Every atomic operation of Record is one step: the overflow count, the
    bucket, the total, the sum, and each load and compare-and-swap on min and
    max. The snapshot loads the total first and then one bucket a step.
 */
module HistogramRace {
  import opened Fold
  import opened HistogramLayout
  import opened HistogramSpec
  import H = Histogram

  // Where a Record call stands: the next operation it will perform.
  const CLAMP := 0
  const BUCKET := 1
  const TOTAL := 2
  const SUM := 3
  const MIN_LOAD := 4
  const MIN_SWAP := 5
  const MAX_LOAD := 6
  const MAX_SWAP := 7
  const DONE := 8

  /** One Record call; seen is what it last loaded from min or max. */
  datatype Worker = Worker(value: int, pc: nat, seen: int)

  /** The snapshot. start is what the buckets held when the total was read. */
  datatype Reader =
    | Idle
    | Scanning(total: int, start: seq<int>, idx: nat, cumulative: int, next: nat, buckets: seq<nat>)

  datatype State = State(
    workers: seq<Worker>, counts: seq<int>, total: int, sum: int, min: int, max: int, overflow: int,
    reader: Reader)

  datatype Event =
    | Call(value: int)
    | Advance(worker: nat)
    | BeginSnapshot
    | ScanBucket

  ghost predicate Initial(s: State) {
    && s.workers == [] && s.reader == Idle
    && |s.counts| == COUNTS_LENGTH && (forall i :: 0 <= i < |s.counts| ==> s.counts[i] == 0)
    && s.total == s.sum == s.max == s.overflow == 0 && s.min == MAX_INT64
  }

  function Bucket(w: Worker): (i: nat)
    ensures i < COUNTS_LENGTH && i == CountsIndex(Clamp(w.value))
  {
    CountsIndexInBounds(Clamp(w.value));
    CountsIndex(Clamp(w.value))
  }

  /** The scan is over: every percentile is set, or no bucket is left. */
  predicate Finished(r: Reader) {
    r.Scanning? && (r.next == 4 || r.idx == COUNTS_LENGTH)
  }

  predicate Enabled(s: State, e: Event) {
    match e
    case Call(_) => true
    case Advance(k) => k < |s.workers| && s.workers[k].pc < DONE && |s.counts| == COUNTS_LENGTH
    case BeginSnapshot => s.reader.Idle? && s.total != 0
    case ScanBucket => s.reader.Scanning? && !Finished(s.reader) && s.reader.idx < |s.counts|
  }

  function Next(s: State, e: Event): State
    requires Enabled(s, e)
  {
    match e
    case Call(value) => s.(workers := s.workers + [Worker(value, CLAMP, 0)])
    case Advance(k) => AdvanceWorker(s, k)
    case BeginSnapshot => s.(reader := Scanning(s.total, s.counts, 0, 0, 0, []))
    case ScanBucket => s.(reader := Scan(s.reader, s.counts[s.reader.idx]))
  }

  function AdvanceWorker(s: State, k: nat): State
    requires Enabled(s, Advance(k))
  {
    var w := s.workers[k];
    var v := Clamp(w.value);
    var t := s.(workers := s.workers[k := w.(pc := w.pc + 1)]);
    if w.pc == CLAMP then
      t.(overflow := if w.value > MAX_TRACKABLE then s.overflow + 1 else s.overflow)
    else if w.pc == BUCKET then
      t.(counts := s.counts[Bucket(w) := s.counts[Bucket(w)] + 1])
    else if w.pc == TOTAL then
      t.(total := s.total + 1)
    else if w.pc == SUM then
      t.(sum := Wrap64(s.sum + v))
    else if w.pc == MIN_LOAD then
      s.(workers := s.workers[k := Worker(w.value, if v >= s.min then MAX_LOAD else MIN_SWAP, s.min)])
    else if w.pc == MIN_SWAP then
      if s.min == w.seen then t.(min := v) else s.(workers := s.workers[k := w.(pc := MIN_LOAD)])
    else if w.pc == MAX_LOAD then
      s.(workers := s.workers[k := Worker(w.value, if v <= s.max then DONE else MAX_SWAP, s.max)])
    else
      if s.max == w.seen then t.(max := v) else s.(workers := s.workers[k := w.(pc := MAX_LOAD)])
  }

  /** One iteration of the percentile scan that loaded c. */
  function Scan(r: Reader, c: int): Reader
    requires r.Scanning?
  {
    if c == 0 then
      r.(idx := r.idx + 1)
    else
      var cumulative := r.cumulative + c;
      var settled := Settle(r.buckets, r.next, r.idx, cumulative, r.total);
      r.(idx := r.idx + 1, cumulative := cumulative, next := |settled|, buckets := settled)
  }

  /** The inner loop: settle every target the running count has reached. */
  function Settle(buckets: seq<nat>, next: nat, idx: nat, cumulative: int, total: int): seq<nat>
    decreases 4 - next
  {
    if next < 4 && H.Reaches(cumulative, TARGETS[next], total) then
      Settle(buckets + [idx], next + 1, idx, cumulative, total)
    else
      buckets
  }

  ghost predicate Executes(s: State, events: seq<Event>, t: State)
    decreases |events|
  {
    if events == [] then s == t
    else Enabled(s, events[0]) && Executes(Next(s, events[0]), events[1..], t)
  }

  // ----- the invariant

  function InBucket(i: int): Worker -> int {
    (w: Worker) => if w.pc > BUCKET && Bucket(w) == i then 1 else 0
  }

  function Bumped(): Worker -> int {
    (w: Worker) => if w.pc > BUCKET then 1 else 0
  }

  function Totalled(): Worker -> int {
    (w: Worker) => if w.pc > TOTAL then 1 else 0
  }

  function Summed(): Worker -> int {
    (w: Worker) => if w.pc > SUM then Clamp(w.value) else 0
  }

  function Overflowed(): Worker -> int {
    (w: Worker) => if w.pc > CLAMP && w.value > MAX_TRACKABLE then 1 else 0
  }

  ghost predicate BucketsInv(s: State) {
    && |s.counts| == COUNTS_LENGTH
    && (forall i :: 0 <= i < |s.counts| ==> s.counts[i] == Sum(s.workers, InBucket(i)))
  }

  ghost predicate TotalsInv(s: State) {
    && s.total == Sum(s.workers, Totalled())
    && s.sum == Wrap64(Sum(s.workers, Summed()))
    && s.overflow == Sum(s.workers, Overflowed())
  }

  ghost predicate MinInv(s: State) {
    && (forall k :: 0 <= k < |s.workers| && s.workers[k].pc > MIN_SWAP ==> s.min <= Clamp(s.workers[k].value))
    && (forall k :: 0 <= k < |s.workers| && s.workers[k].pc == MIN_SWAP ==>
          s.min <= s.workers[k].seen && Clamp(s.workers[k].value) < s.workers[k].seen)
    && (s.min == MAX_INT64 ||
        exists k :: 0 <= k < |s.workers| && s.workers[k].pc > MIN_SWAP && Clamp(s.workers[k].value) == s.min)
  }

  ghost predicate MaxInv(s: State) {
    && s.max >= 0
    && (forall k :: 0 <= k < |s.workers| && s.workers[k].pc > MAX_SWAP ==> Clamp(s.workers[k].value) <= s.max)
    && (forall k :: 0 <= k < |s.workers| && s.workers[k].pc == MAX_SWAP ==>
          s.workers[k].seen <= s.max && s.workers[k].seen < Clamp(s.workers[k].value))
    && (s.max == 0 ||
        exists k :: 0 <= k < |s.workers| && s.workers[k].pc > MAX_SWAP && Clamp(s.workers[k].value) == s.max)
  }

  /** counts dominates start, bucket by bucket. */
  ghost predicate Grown(start: seq<int>, counts: seq<int>) {
    |start| == |counts| && forall i :: 0 <= i < |start| ==> start[i] <= counts[i]
  }

  /** The bucket a racing scan settles for q percent lies between the buckets
      the counts at the start and the counts now would give. */
  ghost predicate Between(start: seq<int>, counts: seq<int>, total: int, q: nat, bucket: nat) {
    && bucket < |start| == |counts|
    && !H.Reaches(Cumulative(start, bucket), q, total)
    && H.Reaches(Cumulative(counts, bucket + 1), q, total)
  }

  ghost predicate Settled(start: seq<int>, counts: seq<int>, total: int, buckets: seq<nat>) {
    && (forall t :: 0 <= t < |buckets| && t < 4 ==> Between(start, counts, total, TARGETS[t], buckets[t]))
    && (forall t, u :: 0 <= t < u < |buckets| ==> buckets[t] <= buckets[u])
  }

  ghost predicate ReaderInv(r: Reader, counts: seq<int>) {
    r.Scanning? ==>
      && Grown(r.start, counts) && r.idx <= |counts| == COUNTS_LENGTH
      && 0 < r.total <= Cumulative(r.start, |r.start|)
      && Cumulative(r.start, r.idx) <= r.cumulative <= Cumulative(counts, r.idx)
      && r.next == |r.buckets| <= 4
      && (forall t :: 0 <= t < r.next ==> r.buckets[t] < r.idx)
      && Settled(r.start, counts, r.total, r.buckets)
      && (r.next < 4 ==> !H.Reaches(r.cumulative, TARGETS[r.next], r.total))
  }

  ghost predicate Inv(s: State) {
    BucketsInv(s) && TotalsInv(s) && MinInv(s) && MaxInv(s) && ReaderInv(s.reader, s.counts)
  }

  // ----- workers keep the counters

  lemma BucketsKept(s: State, k: nat)
    requires BucketsInv(s) && Enabled(s, Advance(k))
    ensures BucketsInv(Next(s, Advance(k))) && Grown(s.counts, Next(s, Advance(k)).counts)
  {
    hide Bucket, Clamp, Wrap64;
    var t := Next(s, Advance(k));
    var w, x := s.workers[k], t.workers[k];
    assert t.workers == s.workers[k := x];
    forall i | 0 <= i < |t.counts| ensures t.counts[i] == Sum(t.workers, InBucket(i)) {
      SumUpdate(s.workers, k, x, InBucket(i));
      assert s.counts[i] == Sum(s.workers, InBucket(i));
      assert x.value == w.value;
      SameBucket(w, x);
    }
  }

  lemma SameBucket(w: Worker, x: Worker)
    requires w.value == x.value
    ensures Bucket(w) == Bucket(x)
  {
  }

  lemma TotalsKept(s: State, k: nat)
    requires TotalsInv(s) && Enabled(s, Advance(k))
    ensures TotalsInv(Next(s, Advance(k)))
  {
    hide Bucket, Wrap64;
    var t := Next(s, Advance(k));
    var w, x := s.workers[k], t.workers[k];
    assert t.workers == s.workers[k := x];
    SumUpdate(s.workers, k, x, Totalled());
    SumUpdate(s.workers, k, x, Summed());
    SumUpdate(s.workers, k, x, Overflowed());
    H.WrapAdd(Sum(s.workers, Summed()), Clamp(w.value));
  }

  lemma MinKept(s: State, k: nat)
    requires MinInv(s) && Enabled(s, Advance(k))
    ensures MinInv(Next(s, Advance(k)))
  {
    hide Bucket, Clamp, Wrap64;
    var t := Next(s, Advance(k));
    assert t.workers[k].value == s.workers[k].value;
    if s.min != MAX_INT64 {
      var j :| 0 <= j < |s.workers| && s.workers[j].pc > MIN_SWAP && Clamp(s.workers[j].value) == s.min;
      assert t.workers[j].pc > MIN_SWAP && t.workers[j].value == s.workers[j].value;
    }
  }

  lemma MaxKept(s: State, k: nat)
    requires MaxInv(s) && Enabled(s, Advance(k))
    ensures MaxInv(Next(s, Advance(k)))
  {
    hide Bucket, Clamp, Wrap64;
    var t := Next(s, Advance(k));
    assert t.workers[k].value == s.workers[k].value;
    if s.max != 0 {
      var j :| 0 <= j < |s.workers| && s.workers[j].pc > MAX_SWAP && Clamp(s.workers[j].value) == s.max;
      assert t.workers[j].pc > MAX_SWAP && t.workers[j].value == s.workers[j].value;
    }
  }

  lemma CallKept(s: State, value: int)
    requires BucketsInv(s) && TotalsInv(s) && MinInv(s) && MaxInv(s)
    ensures var t := Next(s, Call(value)); BucketsInv(t) && TotalsInv(t) && MinInv(t) && MaxInv(t)
  {
    hide Bucket, Clamp, Wrap64;
    var w := Worker(value, CLAMP, 0);
    var t := Next(s, Call(value));
    forall i | 0 <= i < |t.counts| ensures t.counts[i] == Sum(t.workers, InBucket(i)) {
      SumAppend(s.workers, w, InBucket(i));
    }
    SumAppend(s.workers, w, Totalled());
    SumAppend(s.workers, w, Summed());
    SumAppend(s.workers, w, Overflowed());
    forall k | 0 <= k < |s.workers| ensures t.workers[k] == s.workers[k] {
    }
  }

  // ----- the reader survives the race

  lemma CumulativeGrown(start: seq<int>, counts: seq<int>, k: nat)
    requires Grown(start, counts) && k <= |start|
    ensures Cumulative(start, k) <= Cumulative(counts, k)
  {
    if k != 0 {
      CumulativeGrown(start, counts, k - 1);
    }
  }

  /** More counts never undo what the scan has settled. */
  lemma SettledGrown(start: seq<int>, counts: seq<int>, later: seq<int>, total: int, buckets: seq<nat>)
    requires Settled(start, counts, total, buckets) && Grown(counts, later)
    ensures Settled(start, later, total, buckets)
  {
    forall t | 0 <= t < |buckets| && t < 4 ensures Between(start, later, total, TARGETS[t], buckets[t]) {
      assert Between(start, counts, total, TARGETS[t], buckets[t]);
      CumulativeGrown(counts, later, buckets[t] + 1);
    }
  }

  lemma ReaderKeptByWorkers(r: Reader, counts: seq<int>, later: seq<int>)
    requires ReaderInv(r, counts) && Grown(counts, later)
    ensures ReaderInv(r, later)
  {
    hide H.Reaches;
    if r.Scanning? {
      SettledGrown(r.start, counts, later, r.total, r.buckets);
      CumulativeGrown(counts, later, r.idx);
    }
  }

  /** The running count over all buckets is the number of bumped buckets. */
  lemma CumulativeIsBumped(s: State)
    requires BucketsInv(s)
    ensures Cumulative(s.counts, |s.counts|) == Sum(s.workers, Bumped())
  {
    CumulativeBelow(s, |s.counts|);
    SumCongruent(s.workers, BumpedBelow(|s.counts|), Bumped());
  }

  function BumpedBelow(i: int): Worker -> int {
    (w: Worker) => if w.pc > BUCKET && Bucket(w) < i then 1 else 0
  }

  lemma {:induction false} CumulativeBelow(s: State, k: nat)
    requires BucketsInv(s) && k <= |s.counts|
    ensures Cumulative(s.counts, k) == Sum(s.workers, BumpedBelow(k))
  {
    hide Bucket;
    if k == 0 {
      SumZero(s.workers, BumpedBelow(0));
    } else {
      CumulativeBelow(s, k - 1);
      SumAdd(s.workers, BumpedBelow(k - 1), InBucket(k - 1), BumpedBelow(k));
    }
  }

  /** The total is bumped after the bucket and read before it, so it is never
      ahead of the buckets. */
  lemma TotalBehindBuckets(s: State)
    requires BucketsInv(s) && TotalsInv(s)
    ensures 0 <= s.total <= Cumulative(s.counts, |s.counts|)
  {
    CumulativeIsBumped(s);
    SumMonotone(s.workers, Totalled(), Bumped());
    SumNonNegative(s.workers, Totalled());
  }

  lemma BeginKept(s: State)
    requires Inv(s) && Enabled(s, BeginSnapshot)
    ensures Inv(Next(s, BeginSnapshot))
  {
    TotalBehindBuckets(s);
  }

  /** Settle appends idx for exactly the targets the running count reaches. */
  lemma {:induction false} SettleKept(start: seq<int>, counts: seq<int>, buckets: seq<nat>, idx: nat, cumulative: int, total: int)
    requires idx < |start| == |counts| && total > 0
    requires cumulative <= Cumulative(counts, idx + 1)
    requires |buckets| <= 4 && Settled(start, counts, total, buckets)
    requires forall t :: 0 <= t < |buckets| ==> buckets[t] <= idx
    requires |buckets| < 4 ==> !H.Reaches(Cumulative(start, idx), TARGETS[|buckets|], total)
    ensures var out := Settle(buckets, |buckets|, idx, cumulative, total);
            && |out| <= 4 && Settled(start, counts, total, out)
            && (forall t :: 0 <= t < |out| ==> out[t] <= idx)
            && (|out| < 4 ==> !H.Reaches(cumulative, TARGETS[|out|], total))
    decreases 4 - |buckets|
  {
    var next := |buckets|;
    if next < 4 && H.Reaches(cumulative, TARGETS[next], total) {
      assert Between(start, counts, total, TARGETS[next], idx);
      if next + 1 < 4 {
        MulMonotone(TARGETS[next], TARGETS[next + 1], total);
      }
      SettleKept(start, counts, buckets + [idx], idx, cumulative, total);
    }
  }

  lemma ScanKept(r: Reader, counts: seq<int>)
    requires ReaderInv(r, counts) && r.Scanning? && !Finished(r) && r.idx < |counts|
    ensures ReaderInv(Scan(r, counts[r.idx]), counts)
  {
    var c := counts[r.idx];
    assert r.start[r.idx] <= c;
    if c == 0 {
      EmptyBucketKept(r, counts);
    } else {
      FullBucketKept(r, counts);
    }
  }

  lemma ScanStepKept(s: State)
    requires Inv(s) && Enabled(s, ScanBucket)
    ensures Inv(Next(s, ScanBucket))
  {
    hide Scan, ReaderInv;
    ScanKept(s.reader, s.counts);
  }

  lemma EmptyBucketKept(r: Reader, counts: seq<int>)
    requires ReaderInv(r, counts) && r.Scanning? && r.idx < |counts| && counts[r.idx] == 0
    ensures ReaderInv(Scan(r, 0), counts)
  {
    hide H.Reaches, Settled;
  }

  lemma FullBucketKept(r: Reader, counts: seq<int>)
    requires ReaderInv(r, counts) && r.Scanning? && r.idx < |counts| && counts[r.idx] != 0
    requires r.next < 4
    ensures ReaderInv(Scan(r, counts[r.idx]), counts)
  {
    hide H.Reaches, Settled;
    NotReachedEarlier(Cumulative(r.start, r.idx), r.cumulative, TARGETS[r.next], r.total);
    SettleKept(r.start, counts, r.buckets, r.idx, r.cumulative + counts[r.idx], r.total);
  }

  lemma NotReachedEarlier(a: int, b: int, q: nat, total: int)
    requires a <= b && !H.Reaches(b, q, total)
    ensures !H.Reaches(a, q, total)
  {
  }

  lemma StepKeepsInv(s: State, e: Event)
    requires Inv(s) && Enabled(s, e)
    ensures Inv(Next(s, e))
  {
    hide BucketsInv, TotalsInv, MinInv, MaxInv, ReaderInv, AdvanceWorker;
    match e
    case Call(value) =>
      CallKept(s, value);
    case Advance(k) =>
      BucketsKept(s, k);
      TotalsKept(s, k);
      MinKept(s, k);
      MaxKept(s, k);
      ReaderUnmoved(s, k);
      ReaderKeptByWorkers(s.reader, s.counts, Next(s, e).counts);
    case BeginSnapshot =>
      BeginKept(s);
    case ScanBucket =>
      ScanStepKept(s);
  }

  lemma ReaderUnmoved(s: State, k: nat)
    requires Enabled(s, Advance(k))
    ensures Next(s, Advance(k)).reader == s.reader
  {
  }

  lemma InitialInv(s: State)
    requires Initial(s)
    ensures Inv(s)
  {
  }

  lemma {:induction false} RunKeepsInv(s: State, events: seq<Event>, t: State)
    requires Inv(s) && Executes(s, events, t)
    ensures Inv(t)
    decreases |events|
  {
    if events != [] {
      StepKeepsInv(s, events[0]);
      RunKeepsInv(Next(s, events[0]), events[1..], t);
    }
  }

  lemma FinishedReader(r: Reader, counts: seq<int>)
    requires ReaderInv(r, counts) && Finished(r)
    ensures r.next == |r.buckets| == 4
    ensures Grown(r.start, counts) && Settled(r.start, counts, r.total, r.buckets)
  {
    hide H.Reaches, Settled;
    H.AllReached(r.cumulative, r.total);
  }

  // ----- main results

  /** However many Record calls race the scan, it settles all four percentiles
      itself: the fallback that would report the maximum never runs. Each
      settled bucket lies between what the counts at the start and at the end
      of the scan would give for the total that was read. */
  lemma RacingSnapshotSettles(s: State, events: seq<Event>, t: State)
    requires Initial(s) && Executes(s, events, t) && Finished(t.reader)
    ensures t.reader.next == |t.reader.buckets| == 4
    ensures Grown(t.reader.start, t.counts)
    ensures Settled(t.reader.start, t.counts, t.reader.total, t.reader.buckets)
  {
    hide BucketsInv, TotalsInv, MinInv, MaxInv, ReaderInv, Settled;
    InitialInv(s);
    RunKeepsInv(s, events, t);
    FinishedReader(t.reader, t.counts);
  }

  /** Without a race the bounds meet: the bucket is the one a scan at rest
      stops in. */
  lemma BetweenAtRest(counts: seq<int>, total: int, q: nat, bucket: nat)
    ensures Between(counts, counts, total, q, bucket) <==> FirstReaching(counts, total, q, bucket)
  {
  }

  function Values(workers: seq<Worker>): (r: seq<int>)
    ensures |r| == |workers|
    ensures forall k :: 0 <= k < |r| ==> r[k] == workers[k].value
  {
    seq(|workers|, k requires 0 <= k < |workers| => workers[k].value)
  }

  ghost predicate Quiescent(s: State) {
    forall k :: 0 <= k < |s.workers| ==> s.workers[k].pc >= DONE
  }

  /** Once every Record call has returned, no update is lost in any
      interleaving: the fields are the ones recording the same values one after
      another would give, exact minimum and maximum included. */
  lemma QuiescentRepresents(s: State, events: seq<Event>, t: State)
    requires Initial(s) && Executes(s, events, t) && Quiescent(t)
    ensures H.Represents(t.counts, t.total, t.sum, t.min, t.max, t.overflow, Values(t.workers))
  {
    InitialInv(s);
    RunKeepsInv(s, events, t);
    QuiescentTallies(t);
    QuiescentTotals(t);
    QuiescentExtremes(t);
  }

  /** A sum over workers is the same sum over their clamped values. */
  lemma {:induction false} SumOverValues(workers: seq<Worker>, f: Worker -> int, g: nat -> int)
    requires forall k :: 0 <= k < |workers| ==> f(workers[k]) == g(Clamp(workers[k].value))
    ensures Sum(workers, f) == Sum(Clamped(Values(workers)), g)
  {
    if workers != [] {
      var n := |workers| - 1;
      SumOverValues(workers[..n], f, g);
      assert Clamped(Values(workers))[..n] == Clamped(Values(workers[..n]));
    }
  }

  lemma QuiescentTallies(s: State)
    requires BucketsInv(s) && Quiescent(s)
    ensures Tallies(s.counts, Clamped(Values(s.workers)))
  {
    var samples := Clamped(Values(s.workers));
    forall i | 0 <= i < |s.counts| ensures s.counts[i] == Sum(samples, AtIndex(i)) {
      SumOverValues(s.workers, InBucket(i), AtIndex(i));
    }
  }

  lemma QuiescentTotals(s: State)
    requires TotalsInv(s) && Quiescent(s)
    ensures s.total == |Values(s.workers)|
    ensures s.sum == Wrap64(Sum(Clamped(Values(s.workers)), ValueOf()))
    ensures s.overflow == Sum(Values(s.workers), Overflows())
  {
    SumOnes(s.workers, Totalled());
    SumOverValues(s.workers, Summed(), ValueOf());
    SumOverRawValues(s.workers);
  }

  lemma {:induction false} SumOverRawValues(workers: seq<Worker>)
    requires forall k :: 0 <= k < |workers| ==> workers[k].pc >= DONE
    ensures Sum(workers, Overflowed()) == Sum(Values(workers), Overflows())
  {
    if workers != [] {
      var n := |workers| - 1;
      SumOverRawValues(workers[..n]);
      assert Values(workers)[..n] == Values(workers[..n]);
    }
  }

  lemma QuiescentExtremes(s: State)
    requires MinInv(s) && MaxInv(s) && Quiescent(s)
    ensures IsMin(s.min, Clamped(Values(s.workers)))
    ensures IsMax(s.max, Clamped(Values(s.workers)))
  {
    var samples := Clamped(Values(s.workers));
    forall k | 0 <= k < |samples| ensures samples[k] == Clamp(s.workers[k].value) && s.min <= samples[k] <= s.max {
      assert s.workers[k].pc >= DONE;
    }
    if samples != [] {
      assert s.min <= samples[0] <= MAX_TRACKABLE;
      var j :| 0 <= j < |s.workers| && s.workers[j].pc > MIN_SWAP && Clamp(s.workers[j].value) == s.min;
      assert samples[j] == s.min;
      if s.max == 0 {
        assert samples[0] == 0;
      } else {
        var i :| 0 <= i < |s.workers| && s.workers[i].pc > MAX_SWAP && Clamp(s.workers[i].value) == s.max;
        assert samples[i] == s.max;
      }
    }
  }
}
