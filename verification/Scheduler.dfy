/** The arrival scheduler against an adversarial clock.

    Times are integer nanoseconds. The rate is rateNum / rateDen arrivals a
    second, so the ideal time of arrival i is start + floor(i * period), with
    period = SECOND * rateDen / rateNum.
 */
module SchedulerSpec {
  import opened Common

  const SECOND := 1_000_000_000
  const CATCH_UP_FACTOR := 2

  datatype Plan = Plan(start: int, rateNum: nat, rateDen: nat)

  ghost predicate Usable(p: Plan) {
    p.rateNum > 0 && p.rateDen > 0
  }

  /** The ideal offset of arrival i from the start. */
  function Offset(p: Plan, i: nat): nat
    requires p.rateNum > 0
  {
    i * (SECOND * p.rateDen) / p.rateNum
  }

  function Scheduled(p: Plan, i: nat): int
    requires p.rateNum > 0
  {
    p.start + Offset(p, i)
  }

  function Interval(p: Plan): nat
    requires p.rateNum > 0
  {
    SECOND * p.rateDen / p.rateNum
  }

  function MinGap(p: Plan): nat
    requires p.rateNum > 0
  {
    Interval(p) / CATCH_UP_FACTOR
  }

  /** One release. checked is the clock when the deadline is tested, actual the
      release, handedOff when emit hands the request to the transport. */
  datatype Tick = Tick(scheduled: int, checked: int, actual: int, handedOff: int, lag: int)

  /** The time before which release i may not happen. */
  function Deadline(p: Plan, gap: int, ticks: seq<Tick>, i: nat): int
    requires p.rateNum > 0 && i <= |ticks|
  {
    if i == 0 then Scheduled(p, 0) else Max(Scheduled(p, i), ticks[i - 1].actual + gap)
  }

  /** What any run of the loop produces, whatever the clock and emit do: the
      clock never goes back, and no release is before its deadline. */
  ghost predicate Follows(p: Plan, gap: int, ticks: seq<Tick>)
    requires p.rateNum > 0
  {
    forall i :: 0 <= i < |ticks| ==> Lawful(p, gap, ticks, i)
  }

  ghost predicate Lawful(p: Plan, gap: int, ticks: seq<Tick>, i: nat)
    requires p.rateNum > 0 && i < |ticks|
  {
    var t := ticks[i];
    && t.scheduled == Scheduled(p, i)
    && Deadline(p, gap, ticks, i) <= t.actual
    && t.checked <= t.actual <= t.handedOff
    && (i > 0 ==> ticks[i - 1].handedOff <= t.checked)
    && t.lag == Max(0, t.actual - t.scheduled)
  }

  /** A timer that wakes at most d late, and emit plus loop overhead of at most
      the gap. */
  ghost predicate Timely(p: Plan, gap: int, d: int, ticks: seq<Tick>)
    requires p.rateNum > 0
  {
    forall i :: 0 <= i < |ticks| ==> Prompt(p, gap, d, ticks, i)
  }

  ghost predicate Prompt(p: Plan, gap: int, d: int, ticks: seq<Tick>, i: nat)
    requires p.rateNum > 0 && i < |ticks|
  {
    && ticks[i].actual <= Max(ticks[i].checked, Deadline(p, gap, ticks, i)) + d
    && ticks[i].checked <= (if i == 0 then p.start else ticks[i - 1].actual + gap)
  }

  // ----- the schedule itself

  lemma MulOrder(a: int, b: int, n: nat)
    requires a <= b
    ensures a * n <= b * n
  {
  }

  lemma DivSum(a: nat, b: nat, n: nat)
    requires n > 0
    ensures a / n + b / n <= (a + b) / n <= a / n + b / n + 1
  {
    var p, q, r := a / n, b / n, (a + b) / n;
    var x, y, z := a % n, b % n, (a + b) % n;
    assert (r - p - q) * n == x + y - z;
    if r < p + q {
      MulOrder(r - p - q, -1, n);
    }
    if r > p + q + 1 {
      MulOrder(2, r - p - q, n);
    }
  }

  /** Consecutive arrivals are one interval apart, rounded up at most once. */
  lemma ScheduleStep(p: Plan, i: nat)
    requires Usable(p)
    ensures Scheduled(p, i) + Interval(p) <= Scheduled(p, i + 1) <= Scheduled(p, i) + Interval(p) + 1
  {
    var period := SECOND * p.rateDen;
    assert (i + 1) * period == i * period + period;
    DivSum(i * period, period, p.rateNum);
  }

  /** Errors do not accumulate: the n-th arrival is within a nanosecond of its
      exact time, for every n. */
  lemma ScheduleExact(p: Plan, i: nat)
    requires Usable(p)
    ensures var exact := i * (SECOND * p.rateDen); // in units of 1/rateNum ns
            Offset(p, i) * p.rateNum <= exact < (Offset(p, i) + 1) * p.rateNum
  {
    var exact := i * (SECOND * p.rateDen);
    var q := exact / p.rateNum;
    assert exact == q * p.rateNum + exact % p.rateNum;
  }

  // ----- no burst

  /** Whatever the clock does, releases stay a gap apart. */
  lemma {:induction false} ReleasesSpaced(p: Plan, gap: int, ticks: seq<Tick>, j: nat, k: nat)
    requires Usable(p) && gap >= 0 && Follows(p, gap, ticks)
    requires j <= k < |ticks|
    ensures ticks[k].actual - ticks[j].actual >= (k - j) * gap
  {
    if j < k {
      ReleasesSpaced(p, gap, ticks, j, k - 1);
      assert Lawful(p, gap, ticks, k);
      assert (k - j) * gap == (k - 1 - j) * gap + gap;
    }
  }

  /** Waiting for a worker slot can bring two hand-offs closer by one gap, and
      no more. */
  lemma HandOffsSpaced(p: Plan, gap: int, ticks: seq<Tick>, j: nat, k: nat)
    requires Usable(p) && gap >= 0 && Follows(p, gap, ticks)
    requires j < k < |ticks|
    ensures ticks[k].handedOff - ticks[j].handedOff >= (k - j - 1) * gap
  {
    ReleasesSpaced(p, gap, ticks, j + 1, k);
    assert Lawful(p, gap, ticks, j + 1) && Lawful(p, gap, ticks, k);
  }

  /** A window of length w sees at most w / gap + 2 requests handed over. */
  lemma WindowBounded(p: Plan, gap: int, ticks: seq<Tick>, j: nat, k: nat, w: nat)
    requires Usable(p) && gap > 0 && Follows(p, gap, ticks)
    requires j <= k < |ticks| && ticks[k].handedOff - ticks[j].handedOff <= w
    ensures k - j + 1 <= w / gap + 2
  {
    if j < k {
      HandOffsSpaced(p, gap, ticks, j, k);
      QuotientAtLeast(k - j - 1, gap, w);
    }
  }

  lemma QuotientAtLeast(n: nat, gap: nat, w: nat)
    requires gap > 0 && n * gap <= w
    ensures n <= w / gap
  {
    var q := w / gap;
    assert w < q * gap + gap;
    if q + 1 <= n {
      MulOrder(q + 1, n, gap);
    }
  }

  /** No release precedes its ideal time, so the clamp on lag never hides a
      negative value. */
  lemma NeverEarly(p: Plan, gap: int, ticks: seq<Tick>, i: nat)
    requires Usable(p) && Follows(p, gap, ticks) && i < |ticks|
    ensures ticks[i].scheduled <= ticks[i].actual && ticks[i].lag == ticks[i].actual - ticks[i].scheduled
  {
    assert Lawful(p, gap, ticks, i);
  }

  // ----- recovery

  /** One tick of a timely run recovers interval - gap - d of lag, down to d. */
  lemma LagStep(p: Plan, gap: int, d: int, ticks: seq<Tick>, i: nat)
    requires Usable(p) && gap >= 0 && d >= 0 && Follows(p, gap, ticks) && Timely(p, gap, d, ticks)
    requires i + 1 < |ticks|
    ensures ticks[i + 1].lag <= Max(d, ticks[i].lag - (Interval(p) - gap - d))
  {
    NeverEarly(p, gap, ticks, i);
    NeverEarly(p, gap, ticks, i + 1);
    ScheduleStep(p, i);
    assert Lawful(p, gap, ticks, i) && Lawful(p, gap, ticks, i + 1);
    assert Prompt(p, gap, d, ticks, i + 1);
  }

  lemma OneMore(k: nat, r: int)
    requires k > 0
    ensures k * r == (k - 1) * r + r
  {
  }

  /** Lag never accumulates: k ticks after a lag of L it is at most
      max(d, L - k * (interval - gap - d)). */
  lemma {:induction false} LagRecovers(p: Plan, gap: int, d: int, ticks: seq<Tick>, i: nat, k: nat)
    requires Usable(p) && gap >= 0 && 0 <= d <= Interval(p) - gap
    requires Follows(p, gap, ticks) && Timely(p, gap, d, ticks)
    requires i + k < |ticks|
    ensures ticks[i + k].lag <= Max(d, ticks[i].lag - k * (Interval(p) - gap - d))
  {
    hide Follows, Timely, Interval;
    if k > 0 {
      LagRecovers(p, gap, d, ticks, i, k - 1);
      LagStep(p, gap, d, ticks, i + k - 1);
      OneMore(k, Interval(p) - gap - d);
    }
  }

  lemma FirstTick(p: Plan, gap: int, d: int, ticks: seq<Tick>)
    requires Usable(p) && d >= 0 && Follows(p, gap, ticks) && Timely(p, gap, d, ticks)
    requires ticks != []
    ensures ticks[0].lag <= d
  {
    assert Lawful(p, gap, ticks, 0) && Prompt(p, gap, d, ticks, 0);
    assert Offset(p, 0) == 0;
  }

  /** A timely run that starts on time is never more than d late. */
  lemma TimelyFromTheStart(p: Plan, gap: int, d: int, ticks: seq<Tick>, i: nat)
    requires Usable(p) && gap >= 0 && 0 <= d <= Interval(p) - gap
    requires Follows(p, gap, ticks) && Timely(p, gap, d, ticks)
    requires i < |ticks|
    ensures ticks[i].lag <= d
  {
    FirstTick(p, gap, d, ticks);
    hide Follows, Timely, Interval;
    LagRecovers(p, gap, d, ticks, 0, i);
    MulOrder(0, Interval(p) - gap - d, i);
  }

  /** With the constant of the scheduler, recovery takes any wake-up lateness up
      to half an interval. */
  lemma CatchUpFactorRecovers(p: Plan, d: int, ticks: seq<Tick>, i: nat, k: nat)
    requires Usable(p) && 0 <= 2 * d <= Interval(p)
    requires Follows(p, MinGap(p), ticks) && Timely(p, MinGap(p), d, ticks)
    requires i + k < |ticks| && ticks[i].lag <= d + k * (Interval(p) - MinGap(p) - d)
    ensures ticks[i + k].lag <= d
  {
    hide Follows, Timely;
    assert MinGap(p) + d <= Interval(p);
    hide Interval, MinGap;
    LagRecovers(p, MinGap(p), d, ticks, i, k);
  }

  // ----- the same in terms of the rate alone

  /** Release k is scheduled at its exact time rounded down to a nanosecond, its
      lag is how long after that it happened, and since release j at least half
      the time the rate allows has passed for each arrival, less a nanosecond;
      for hand-offs to the transport, for each arrival but one. */
  ghost predicate ByTheRate(p: Plan, ticks: seq<Tick>, j: nat, k: nat)
    requires j <= k < |ticks|
  {
    && (ticks[k].scheduled - p.start) * p.rateNum <= k * (1_000_000_000 * p.rateDen)
    && k * (1_000_000_000 * p.rateDen) < (ticks[k].scheduled - p.start + 1) * p.rateNum
    && ticks[k].lag == ticks[k].actual - ticks[k].scheduled >= 0
    && (ticks[k].actual - ticks[j].actual) * (2 * p.rateNum) >= (k - j) * (1_000_000_000 * p.rateDen - 2 * p.rateNum)
    && (j < k ==> (ticks[k].handedOff - ticks[j].handedOff) * (2 * p.rateNum) >=
                    (k - j - 1) * (1_000_000_000 * p.rateDen - 2 * p.rateNum))
  }

  ghost predicate Paced(p: Plan, ticks: seq<Tick>) {
    forall j, k :: 0 <= j <= k < |ticks| ==> ByTheRate(p, ticks, j, k)
  }

  /** Twice the floor is an interval, or a nanosecond less. */
  lemma FloorIsHalf(p: Plan)
    requires Usable(p)
    ensures Interval(p) - 1 <= 2 * MinGap(p) <= Interval(p)
    ensures 2 * p.rateNum * MinGap(p) >= 1_000_000_000 * p.rateDen - 2 * p.rateNum
  {
    var i, n := Interval(p), p.rateNum;
    assert SECOND * p.rateDen == i * n + SECOND * p.rateDen % n;
    MulOrder(i - 1, 2 * MinGap(p), n);
    assert (i - 1) * n == i * n - n;
    assert 2 * MinGap(p) * n == 2 * n * MinGap(p);
  }

  /** n gaps of at least one floor each, in terms of the rate. */
  lemma GapsByTheRate(p: Plan, passed: int, n: nat)
    requires Usable(p) && passed >= n * MinGap(p)
    ensures passed * (2 * p.rateNum) >= n * (1_000_000_000 * p.rateDen - 2 * p.rateNum)
  {
    var g, m := MinGap(p), 2 * p.rateNum;
    FloorIsHalf(p);
    hide MinGap, Interval;
    MulOrder(n * g, passed, m);
    MulOrder(1_000_000_000 * p.rateDen - m, m * g, n);
    assert n * g * m == m * g * n;
    Commutes(1_000_000_000 * p.rateDen - m, n);
  }

  lemma Commutes(a: int, n: int)
    ensures a * n == n * a
  {
  }

  lemma FollowsIsPaced(p: Plan, ticks: seq<Tick>)
    requires Usable(p) && Follows(p, MinGap(p), ticks)
    ensures Paced(p, ticks)
  {
    hide Follows, MinGap, Interval, Offset;
    forall j, k | 0 <= j <= k < |ticks| ensures ByTheRate(p, ticks, j, k) {
      NeverEarly(p, MinGap(p), ticks, k);
      ScheduledTick(p, MinGap(p), ticks, k);
      ScheduleExact(p, k);
      ReleasesSpaced(p, MinGap(p), ticks, j, k);
      GapsByTheRate(p, ticks[k].actual - ticks[j].actual, k - j);
      if j < k {
        HandOffsSpaced(p, MinGap(p), ticks, j, k);
        GapsByTheRate(p, ticks[k].handedOff - ticks[j].handedOff, k - j - 1);
      }
    }
  }

  lemma ScheduledTick(p: Plan, gap: int, ticks: seq<Tick>, i: nat)
    requires p.rateNum > 0 && Follows(p, gap, ticks) && i < |ticks|
    ensures ticks[i].scheduled == p.start + Offset(p, i)
  {
    hide Offset;
    assert Lawful(p, gap, ticks, i);
  }

  /** A window of length w sees at most two requests more than twice what the
      rate allows in it, give or take a nanosecond an arrival. */
  lemma WindowByTheRate(p: Plan, ticks: seq<Tick>, j: nat, k: nat, w: nat)
    requires Paced(p, ticks) && j < k < |ticks|
    requires ticks[k].handedOff - ticks[j].handedOff <= w
    ensures var requests := k - j + 1;
            (requests - 2) * (1_000_000_000 * p.rateDen - 2 * p.rateNum) <= 2 * w * p.rateNum
  {
    assert ByTheRate(p, ticks, j, k);
    MulOrder(ticks[k].handedOff - ticks[j].handedOff, w, 2 * p.rateNum);
    assert w * (2 * p.rateNum) == 2 * w * p.rateNum;
  }

  // ----- the ratchet a floor of one whole interval would be

  /** With a gap of a whole interval, lag falls in any run only by what rounding
      the interval down has left over: at most a nanosecond a tick, and never
      where the period is a whole number of nanoseconds. */
  lemma {:induction false} FullIntervalNeverRecovers(p: Plan, ticks: seq<Tick>, i: nat, k: nat)
    requires Usable(p) && Follows(p, Interval(p), ticks)
    requires i + k < |ticks|
    ensures ticks[i].lag - k <= ticks[i + k].lag
    ensures SECOND * p.rateDen % p.rateNum == 0 ==> ticks[i].lag <= ticks[i + k].lag
  {
    if k > 0 {
      FullIntervalNeverRecovers(p, ticks, i, k - 1);
      FullIntervalStep(p, ticks, i + k);
    }
  }

  lemma FullIntervalStep(p: Plan, ticks: seq<Tick>, i: nat)
    requires Usable(p) && Follows(p, Interval(p), ticks)
    requires 0 < i < |ticks|
    ensures ticks[i - 1].lag - 1 <= ticks[i].lag
    ensures SECOND * p.rateDen % p.rateNum == 0 ==> ticks[i - 1].lag <= ticks[i].lag
  {
    assert Lawful(p, Interval(p), ticks, i - 1) && Lawful(p, Interval(p), ticks, i);
    ScheduleStep(p, i - 1);
    if SECOND * p.rateDen % p.rateNum == 0 {
      EvenStep(p, i - 1);
    }
  }

  lemma EvenStep(p: Plan, i: nat)
    requires Usable(p) && SECOND * p.rateDen % p.rateNum == 0
    ensures Scheduled(p, i + 1) == Scheduled(p, i) + Interval(p)
  {
    var period, n := SECOND * p.rateDen, p.rateNum;
    var q := period / n;
    assert period == q * n;
    assert i * period == (i * q) * n && (i + 1) * period == (i * q + q) * n;
    DivExact(i * q, n);
    DivExact(i * q + q, n);
  }

  lemma DivExact(a: nat, n: nat)
    requires n > 0
    ensures a * n / n == a
  {
    var q := a * n / n;
    assert a * n == q * n + a * n % n;
    if q < a {
      MulOrder(1, a - q, n);
    }
    if a < q {
      MulOrder(a - q, -1, n);
    }
  }

  /** The run in which every wake-up is exactly d late and nothing else costs
      time: each release but the first is an interval and d after the last. */
  function RatchetTicks(p: Plan, d: nat, n: nat): (ticks: seq<Tick>)
    requires p.rateNum > 0
    ensures |ticks| == n
    ensures forall i :: 0 <= i < n ==> ticks[i] == RatchetTick(p, d, i)
  {
    seq(n, i requires 0 <= i => RatchetTick(p, d, i))
  }

  function RatchetTick(p: Plan, d: nat, i: nat): Tick
    requires p.rateNum > 0
  {
    var actual := RatchetTime(p, d, i);
    Tick(Scheduled(p, i), if i == 0 then p.start else RatchetTime(p, d, i - 1), actual, actual, actual - Scheduled(p, i))
  }

  function RatchetTime(p: Plan, d: nat, i: nat): int
    requires p.rateNum > 0
  {
    p.start + i * Interval(p) + (i + 1) * d
  }

  /** At any rate it is a timely run of a scheduler with a floor of one interval,
      and its lag passes every bound: such a scheduler ratchets. */
  lemma FullIntervalRatchets(p: Plan, d: nat, bound: nat)
    requires Usable(p) && d > 0
    ensures var ticks := RatchetTicks(p, d, bound * p.rateNum + 1);
            && Follows(p, Interval(p), ticks) && Timely(p, Interval(p), d, ticks)
            && ticks[bound * p.rateNum].lag > bound
  {
    var n := bound * p.rateNum;
    var ticks := RatchetTicks(p, d, n + 1);
    forall i | 0 <= i < |ticks|
      ensures Lawful(p, Interval(p), ticks, i) && Prompt(p, Interval(p), d, ticks, i)
    {
      RatchetStep(p, d, ticks, i);
    }
    RatchetLag(p, d, bound);
  }

  /** What rounding the interval down has saved by arrival i. */
  lemma RoundedAway(p: Plan, i: nat)
    requires Usable(p)
    ensures i * Interval(p) <= Offset(p, i) <= i * Interval(p) + i
  {
    if i > 0 {
      RoundedAway(p, i - 1);
      ScheduleStep(p, i - 1);
      OneMore(i, Interval(p));
    }
  }

  /** After bound * rateNum arrivals it is at least bound short of one nanosecond
      each. */
  lemma SavedAtMultiple(p: Plan, bound: nat)
    requires Usable(p)
    ensures var n := bound * p.rateNum; Offset(p, n) <= n * Interval(p) + n - bound
  {
    var n, r := bound * p.rateNum, SECOND * p.rateDen % p.rateNum;
    var whole := n * Interval(p) + bound * r;
    ScheduleExact(p, n);
    assert SECOND * p.rateDen == Interval(p) * p.rateNum + r;
    MultipleExact(bound, p.rateNum, Interval(p), r);
    DivExact(whole, p.rateNum);
    MulOrder(r, p.rateNum - 1, bound);
    LessOne(bound, p.rateNum);
  }

  lemma MultipleExact(bound: nat, rate: nat, interval: nat, r: nat)
    ensures bound * rate * (interval * rate + r) == (bound * rate * interval + bound * r) * rate
  {
  }

  lemma LessOne(bound: nat, rate: nat)
    ensures (rate - 1) * bound == bound * rate - bound
  {
  }

  lemma RatchetLag(p: Plan, d: nat, bound: nat)
    requires Usable(p) && d > 0
    ensures RatchetTick(p, d, bound * p.rateNum).lag > bound
  {
    SavedAtMultiple(p, bound);
    MulOrder(1, d, bound * p.rateNum + 1);
    hide Interval, Offset;
  }

  lemma RatchetStep(p: Plan, d: nat, ticks: seq<Tick>, i: nat)
    requires Usable(p) && d > 0
    requires i < |ticks| && forall j :: 0 <= j < |ticks| ==> ticks[j] == RatchetTick(p, d, j)
    ensures Lawful(p, Interval(p), ticks, i) && Prompt(p, Interval(p), d, ticks, i)
  {
    RoundedAway(p, i);
    MulOrder(1, d, i);
    MulOrder(1, d, i + 1);
    OneMore(i + 1, d);
    if i > 0 {
      OneMore(i, Interval(p));
      assert ticks[i - 1] == RatchetTick(p, d, i - 1);
    } else {
      assert Offset(p, 0) == 0;
    }
    hide Interval, Offset;
  }
}

module Scheduler {
  import opened Common
  import opened SchedulerSpec

  datatype Outcome = Completed | Cancelled | EmitFailed | BadRate

  /** The clock and everything that runs beside the scheduler. Nothing is known
      of it but that time never goes back, that a sleep not cut short lasts to
      its deadline, and that a cancelled run stays cancelled. */
  class Environment {
    var now: int
    var cancelled: bool
    var refused: bool
    // Every deadline slept to, in order.
    ghost var slept: seq<int>

    constructor (now: int)
      ensures this.now == now && !cancelled && !refused && slept == []
    {
      this.now, cancelled, refused, slept := now, false, false, [];
    }

    method Now() returns (t: int)
      modifies this`now
      ensures old(now) <= t == now
    {
      var passed :| passed >= 0;
      now := now + passed;
      t := now;
    }

    method SleepUntil(deadline: int) returns (ok: bool)
      modifies this`now, this`slept, this`cancelled
      ensures old(now) <= now && (ok ==> deadline <= now) && (old(cancelled) || !ok ==> cancelled)
      ensures slept == old(slept) + [deadline]
    {
      var passed :| passed >= 0;
      now := now + passed;
      slept := slept + [deadline];
      ok := deadline <= now;
      cancelled := cancelled || !ok;
    }

    /** Whether the run has been cancelled by now. */
    method ContextDone() returns (done: bool)
      modifies this`cancelled
      ensures done == cancelled && (old(cancelled) ==> cancelled)
    {
      var cancel: bool := *;
      cancelled := cancelled || cancel;
      done := cancelled;
    }

    /** dispatch: waits for a worker slot as long as it takes, then hands over,
        or refuses because the run has stopped. */
    method Emit() returns (ok: bool, handedOff: int)
      modifies this`now, this`refused
      ensures old(now) <= handedOff <= now
      ensures refused <==> old(refused) || !ok
    {
      handedOff := Now();
      var after := Now();
      ok := *;
      refused := refused || !ok;
    }
  }

  /** The deadlines a run slept to: those of the releases that were not yet due
      when it looked. */
  ghost function Sleeps(p: Plan, gap: int, ticks: seq<Tick>): seq<int>
    requires p.rateNum > 0
  {
    if ticks == [] then []
    else
      var n := |ticks| - 1;
      var deadline := Deadline(p, gap, ticks, n);
      Sleeps(p, gap, ticks[..n]) + if ticks[n].checked < deadline then [deadline] else []
  }

  /** Releases count slots, each no earlier than its ideal time and no closer
      than half an interval to the previous release, sleeping only for slots
      that are not yet due. It stops early exactly when cancelled or when emit
      refuses, and lists the slots released. */
  method Run(env: Environment, p: Plan, count: nat) returns (out: Outcome, ticks: seq<Tick>)
    modifies env
    ensures out == BadRate <==> !(p.rateNum > 0 && p.rateDen > 0)
    ensures out == BadRate ==> ticks == []
    ensures out != BadRate ==> Follows(p, MinGap(p), ticks) && |ticks| <= count
    ensures out != BadRate ==> Paced(p, ticks)
    ensures out == Completed ==> |ticks| == count
    ensures out == Completed || out == EmitFailed ==> env.slept == old(env.slept) + Sleeps(p, MinGap(p), ticks)
    ensures out == Cancelled ==> env.cancelled
    ensures out == EmitFailed ==> env.refused && |ticks| > 0
    ensures out != EmitFailed ==> env.refused == old(env.refused)
  {
    hide Scheduled, Offset, Interval, MinGap, Follows, Sleeps, Paced;
    ticks := [];
    if p.rateNum == 0 || p.rateDen == 0 {
      return BadRate, [];
    }
    var minGap := MinGap(p);
    NoTicks(p, minGap);
    for i := 0 to count
      invariant |ticks| == i
      invariant Follows(p, minGap, ticks)
      invariant i > 0 ==> ticks[i - 1].handedOff <= env.now
      invariant env.slept == old(env.slept) + Sleeps(p, minGap, ticks)
      invariant env.refused == old(env.refused)
    {
      FollowsIsPaced(p, ticks);
      var cancelled := env.ContextDone();
      if cancelled {
        return Cancelled, ticks;
      }
      var scheduled := Scheduled(p, i);
      var deadline := scheduled;
      if i > 0 {
        var floor := ticks[i - 1].actual + minGap;
        if floor > deadline {
          deadline := floor;
        }
      }
      var checked := env.Now();
      if checked < deadline {
        var ok := env.SleepUntil(deadline);
        if !ok {
          return Cancelled, ticks;
        }
      }
      var actual := env.Now();
      var lag := actual - scheduled;
      if lag < 0 {
        lag := 0;
      }
      var ok, handedOff := env.Emit();
      var tick := Tick(scheduled, checked, actual, handedOff, lag);
      FollowsNext(p, minGap, ticks, tick);
      SleepsNext(p, minGap, ticks, tick);
      ticks := ticks + [tick];
      if !ok {
        FollowsIsPaced(p, ticks);
        return EmitFailed, ticks;
      }
    }
    FollowsIsPaced(p, ticks);
    return Completed, ticks;
  }

  lemma NoTicks(p: Plan, gap: int)
    requires p.rateNum > 0
    ensures Follows(p, gap, []) && Sleeps(p, gap, []) == []
  {
  }

  lemma SleepsNext(p: Plan, gap: int, ticks: seq<Tick>, t: Tick)
    requires p.rateNum > 0
    ensures var deadline := Deadline(p, gap, ticks, |ticks|);
            Sleeps(p, gap, ticks + [t]) == Sleeps(p, gap, ticks) + if t.checked < deadline then [deadline] else []
  {
    assert (ticks + [t])[..|ticks|] == ticks;
  }

  lemma FollowsNext(p: Plan, gap: int, ticks: seq<Tick>, t: Tick)
    requires p.rateNum > 0 && Follows(p, gap, ticks)
    requires t.scheduled == Scheduled(p, |ticks|) && Deadline(p, gap, ticks, |ticks|) <= t.actual
    requires t.checked <= t.actual <= t.handedOff
    requires |ticks| > 0 ==> ticks[|ticks| - 1].handedOff <= t.checked
    requires t.lag == Max(0, t.actual - t.scheduled)
    ensures Follows(p, gap, ticks + [t])
  {
    var all := ticks + [t];
    forall i | 0 <= i < |all| ensures Lawful(p, gap, all, i) {
      if i < |ticks| {
        assert Lawful(p, gap, ticks, i);
      }
    }
  }
}
