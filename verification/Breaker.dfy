/** The circuit breaker: a ring buffer that stands for a sliding window, and a
    latch. The reference is the whole history of outcomes.
 */
module BreakerSpec {

  /** Breaker settings after NewBreaker; errorRate is an exact fraction. */
  datatype Settings = Settings(errorRate: real, window: nat, consecutiveFailures: int)

  predicate Disabled(cfg: Settings) {
    cfg.errorRate <= 0.0 && cfg.consecutiveFailures <= 0
  }

  /** The number of failures in a stretch of outcomes (true = failure). */
  function Failures(outcomes: seq<bool>): (n: nat)
    ensures n <= |outcomes|
  {
    if outcomes == [] then 0
    else Failures(outcomes[..|outcomes| - 1]) + if outcomes[|outcomes| - 1] then 1 else 0
  }

  /** The length of the run of failures the history ends in. */
  function TrailingFailures(outcomes: seq<bool>): (n: nat)
    ensures n <= |outcomes|
  {
    if outcomes == [] || !outcomes[|outcomes| - 1] then 0
    else 1 + TrailingFailures(outcomes[..|outcomes| - 1])
  }

  /** The last n outcomes, or all of them while there are fewer. */
  function LastOf(outcomes: seq<bool>, n: nat): seq<bool> {
    if |outcomes| <= n then outcomes else outcomes[|outcomes| - n..]
  }

  /** A threshold is met at the end of this history; the rate counts only on a
      full window. */
  predicate Meets(cfg: Settings, history: seq<bool>) {
    MeetsRun(cfg, history) || MeetsRate(cfg, history)
  }

  predicate MeetsRun(cfg: Settings, history: seq<bool>) {
    cfg.consecutiveFailures > 0 && TrailingFailures(history) >= cfg.consecutiveFailures
  }

  predicate MeetsRate(cfg: Settings, history: seq<bool>) {
    && cfg.errorRate > 0.0 && |history| >= cfg.window
    && Failures(LastOf(history, cfg.window)) as real >= cfg.errorRate * cfg.window as real
  }

  /** Some prefix of the history met a threshold. */
  ghost predicate Tripped(cfg: Settings, history: seq<bool>) {
    exists n :: 0 < n <= |history| && Meets(cfg, history[..n])
  }

  // ----- properties of the reference

  lemma {:induction false} FailuresConcat(a: seq<bool>, b: seq<bool>)
    ensures Failures(a + b) == Failures(a) + Failures(b)
  {
    if b == [] {
      assert a + b == a;
    } else {
      assert (a + b)[..|a + b| - 1] == a + b[..|b| - 1];
      FailuresConcat(a, b[..|b| - 1]);
    }
  }

  /** Tripping is a latch: no later outcome undoes it. */
  lemma TrippedLatches(cfg: Settings, history: seq<bool>, more: seq<bool>)
    requires Tripped(cfg, history)
    ensures Tripped(cfg, history + more)
  {
    var n :| 0 < n <= |history| && Meets(cfg, history[..n]);
    assert (history + more)[..n] == history[..n];
  }

  /** One more outcome trips the breaker only by meeting a threshold itself. */
  lemma TrippedNext(cfg: Settings, history: seq<bool>, failed: bool)
    ensures Tripped(cfg, history + [failed]) <==> Tripped(cfg, history) || Meets(cfg, history + [failed])
  {
    var all := history + [failed];
    assert all[..|all|] == all;
    forall n | 0 < n <= |history| ensures all[..n] == history[..n] {
    }
  }

  /** A disabled breaker never trips. */
  lemma DisabledNeverTrips(cfg: Settings, history: seq<bool>)
    requires Disabled(cfg)
    ensures !Tripped(cfg, history)
  {
  }

  /** The window slides by one: the oldest outcome leaves, the newest enters. */
  lemma WindowSlides(history: seq<bool>, window: nat, failed: bool)
    requires window >= 1
    ensures LastOf(history + [failed], window) ==
            if |history| < window then history + [failed] else LastOf(history, window)[1..] + [failed]
  {
  }

  // ----- the thresholds, without the counters

  /** n failures in a row from outcome i on. */
  predicate FailureRun(history: seq<bool>, i: int, n: int) {
    0 <= i <= i + n <= |history| && forall k :: i <= k < i + n ==> history[k]
  }

  /** The share of failures among the w outcomes from i on. */
  predicate FailureShare(history: seq<bool>, i: int, w: nat, rate: real) {
    0 <= i && i + w <= |history| && multiset(history[i..i + w])[true] as real >= rate * w as real
  }

  lemma {:induction false} FailuresCounted(outcomes: seq<bool>)
    ensures Failures(outcomes) == multiset(outcomes)[true]
  {
    if outcomes != [] {
      var n := |outcomes| - 1;
      FailuresCounted(outcomes[..n]);
      assert outcomes == outcomes[..n] + [outcomes[n]];
    }
  }

  lemma {:induction false} TrailingRun(history: seq<bool>, n: nat)
    ensures TrailingFailures(history) >= n <==> FailureRun(history, |history| - n, n)
    decreases |history|
  {
    if history != [] && n > 0 {
      var last := |history| - 1;
      var before := history[..last];
      TrailingRun(before, n - 1);
      assert FailureRun(before, last - (n - 1), n - 1) && history[last] <==> FailureRun(history, |history| - n, n) by {
        assert forall k :: 0 <= k < last ==> before[k] == history[k];
      }
    }
  }

  lemma MeetsExactly(cfg: Settings, history: seq<bool>, n: nat)
    requires cfg.window >= 1 && n <= |history|
    ensures Meets(cfg, history[..n]) <==>
            || (cfg.consecutiveFailures > 0 && FailureRun(history, n - cfg.consecutiveFailures, cfg.consecutiveFailures))
            || (cfg.errorRate > 0.0 && FailureShare(history, n - cfg.window, cfg.window, cfg.errorRate))
  {
    hide MeetsRun, MeetsRate, FailureRun, FailureShare;
    RunMeets(cfg, history, n);
    RateMeets(cfg, history, n);
  }

  lemma RunMeets(cfg: Settings, history: seq<bool>, n: nat)
    requires n <= |history|
    ensures MeetsRun(cfg, history[..n]) <==>
            cfg.consecutiveFailures > 0 && FailureRun(history, n - cfg.consecutiveFailures, cfg.consecutiveFailures)
  {
    var prefix, c := history[..n], cfg.consecutiveFailures;
    if c > 0 {
      TrailingRun(prefix, c);
      assert forall k :: 0 <= k < n ==> prefix[k] == history[k];
    }
  }

  predicate Share(failures: int, w: nat, rate: real) {
    failures as real >= rate * w as real
  }

  lemma RateIsShare(cfg: Settings, history: seq<bool>)
    ensures MeetsRate(cfg, history) <==>
            && cfg.errorRate > 0.0 && |history| >= cfg.window
            && Share(Failures(LastOf(history, cfg.window)), cfg.window, cfg.errorRate)
  {
  }

  lemma ShareIsShare(history: seq<bool>, i: int, w: nat, rate: real)
    ensures FailureShare(history, i, w, rate) <==>
            0 <= i && i + w <= |history| && Share(multiset(history[i..i + w])[true], w, rate)
  {
  }

  lemma RateMeets(cfg: Settings, history: seq<bool>, n: nat)
    requires n <= |history|
    ensures MeetsRate(cfg, history[..n]) <==>
            cfg.errorRate > 0.0 && FailureShare(history, n - cfg.window, cfg.window, cfg.errorRate)
  {
    hide Share, MeetsRate, FailureShare, Failures, LastOf;
    var prefix, i := history[..n], n - cfg.window;
    RateIsShare(cfg, prefix);
    ShareIsShare(history, i, cfg.window, cfg.errorRate);
    WindowCounted(prefix, cfg.window);
    if i >= 0 {
      assert prefix[i..] == history[i..i + cfg.window];
    }
  }

  lemma WindowCounted(history: seq<bool>, w: nat)
    ensures |history| >= w ==> Failures(LastOf(history, w)) == multiset(history[|history| - w..])[true]
  {
    FailuresCounted(LastOf(history, w));
    assert history[0..] == history;
  }

  /** The breaker trips exactly when the history has somewhere the configured
      number of failures in a row, or a window with the configured share of
      them. */
  lemma TripsExactly(cfg: Settings, history: seq<bool>)
    requires cfg.window >= 1
    ensures Tripped(cfg, history) <==>
            || (cfg.consecutiveFailures > 0 && exists i :: FailureRun(history, i, cfg.consecutiveFailures))
            || (cfg.errorRate > 0.0 && exists i :: FailureShare(history, i, cfg.window, cfg.errorRate))
  {
    forall n: nat | n <= |history| {
      MeetsExactly(cfg, history, n);
    }
    var c, w := cfg.consecutiveFailures, cfg.window;
    hide Meets;
    if c > 0 && exists i :: FailureRun(history, i, c) {
      var i :| FailureRun(history, i, c);
      assert FailureRun(history, i + c - c, c) && Meets(cfg, history[..i + c]);
    }
    if cfg.errorRate > 0.0 && exists i :: FailureShare(history, i, w, cfg.errorRate) {
      var i :| FailureShare(history, i, w, cfg.errorRate);
      assert FailureShare(history, i + w - w, w, cfg.errorRate) && Meets(cfg, history[..i + w]);
    }
  }
}

module Breaker {
  import opened BreakerSpec

  class Breaker {
    const errorRate: real
    const window: nat
    const consecutiveFailures: int

    // Ring of the recent outcomes, true = failure; pos is written next.
    const recent: array<bool>
    var pos: nat
    var filled: nat
    var failures: int
    var consecutive: int
    var tripped: bool
    // Every outcome passed to Record, in the order of the lock.
    ghost var history: seq<bool>

    ghost function Config(): Settings {
      Settings(errorRate, window, consecutiveFailures)
    }

    ghost predicate Valid()
      reads this, recent
    {
      && recent.Length == window >= 1
      && (tripped <==> Tripped(Config(), history))
      && (Disabled(Config()) || tripped || Live(Config(), history, recent[..], pos, filled, failures, consecutive))
    }

    /** NewBreaker: a window below one outcome is raised to one. */
    constructor (errorRate: real, window: int, consecutive: int)
      ensures Valid() && fresh(recent) && history == []
      ensures Config() == Settings(errorRate, if window < 1 then 1 else window, consecutive)
    {
      var size := if window < 1 then 1 else window;
      this.errorRate, this.window, this.consecutiveFailures := errorRate, size, consecutive;
      recent := new bool[size](_ => false);
      pos, filled, failures, this.consecutive, tripped := 0, 0, 0, 0, false;
      history := [];
    }

    /** Files one outcome and reports whether the breaker has now tripped. */
    method Record(failed: bool) returns (trip: bool)
      requires Valid()
      modifies this, recent
      ensures Valid() && history == old(history) + [failed]
      ensures trip <==> Tripped(Config(), history)
    {
      hide Tripped, Live, Meets, LastOf, Failures, TrailingFailures;
      TrippedNext(Config(), history, failed);
      if errorRate <= 0.0 && consecutiveFailures <= 0 {
        DisabledNeverTrips(Config(), history + [failed]);
        history := history + [failed];
        return false;
      }
      if tripped {
        history := history + [failed];
        return true;
      }
      Slide(failed);
      MeetsWhenLive(Config(), history, recent[..], pos, filled, failures, consecutive);
      if consecutiveFailures > 0 && consecutive >= consecutiveFailures {
        tripped := true;
      } else if errorRate > 0.0 && filled == window && failures as real / filled as real >= errorRate {
        tripped := true;
      }
      return tripped;
    }

    /** The ring and counter updates of Record. */
    method Slide(failed: bool)
      requires Live(Config(), history, recent[..], pos, filled, failures, consecutive)
      modifies this, recent
      ensures Live(Config(), history, recent[..], pos, filled, failures, consecutive)
      ensures history == old(history) + [failed] && filled > 0 && tripped == old(tripped)
    {
      hide Live, LastOf, Failures, TrailingFailures;
      LiveShape(Config(), history, recent[..], pos, filled, failures, consecutive);
      OutcomeFiled(Config(), history, recent[..], pos, filled, failures, consecutive, failed);
      history := history + [failed];
      if filled == window && recent[pos] {
        failures := failures - 1;
      }
      recent[pos] := failed;
      pos := (pos + 1) % window;
      if filled < window {
        filled := filled + 1;
      }
      if failed {
        failures := failures + 1;
        consecutive := consecutive + 1;
      } else {
        consecutive := 0;
      }
      assert recent[..] == old(recent[..])[old(pos) := failed];
    }
  }

  /** The ring's contents, oldest first. */
  ghost function RingOf(ring: seq<bool>, pos: nat, filled: nat): seq<bool>
    requires pos <= |ring| && filled <= |ring|
  {
    if filled < |ring| then ring[..filled] else ring[pos..] + ring[..pos]
  }

  /** Until the breaker trips, the ring is the window and the counters are exact. */
  ghost predicate Live(
    cfg: Settings, history: seq<bool>, ring: seq<bool>, pos: nat, filled: nat, failures: int, consecutive: int)
  {
    && |ring| == cfg.window >= 1
    && pos < |ring| && filled <= |ring| && (filled < |ring| ==> pos == filled)
    && filled == (if |history| < cfg.window then |history| else cfg.window)
    && RingOf(ring, pos, filled) == LastOf(history, cfg.window)
    && failures == Failures(LastOf(history, cfg.window))
    && consecutive == TrailingFailures(history)
  }

  lemma LiveShape(
    cfg: Settings, history: seq<bool>, ring: seq<bool>, pos: nat, filled: nat, failures: int, consecutive: int)
    requires Live(cfg, history, ring, pos, filled, failures, consecutive)
    ensures pos < |ring| == cfg.window && filled <= |ring|
  {
  }

  /** The advance of pos wraps to the first slot after the last. */
  lemma WrapPosition(pos: nat, window: nat)
    requires pos < window
    ensures (pos + 1) % window == if pos + 1 == window then 0 else pos + 1
  {
  }

  /** Overwriting slot pos drops the oldest outcome of a full ring and appends
      the new one. */
  lemma RingSlides(ring: seq<bool>, pos: nat, filled: nat, failed: bool)
    requires pos < |ring| && filled <= |ring| && (filled < |ring| ==> pos == filled)
    ensures RingOf(ring[pos := failed], if pos + 1 == |ring| then 0 else pos + 1,
                   if filled < |ring| then filled + 1 else filled) ==
            (if filled < |ring| then RingOf(ring, pos, filled) else RingOf(ring, pos, filled)[1..]) + [failed]
    ensures filled == |ring| ==> RingOf(ring, pos, filled)[0] == ring[pos]
  {
    var after := ring[pos := failed];
    assert after[..pos] == ring[..pos] && after[pos + 1..] == ring[pos + 1..];
    assert after[..pos + 1] == ring[..pos] + [failed];
    assert ring[pos..] == [ring[pos]] + ring[pos + 1..];
  }

  lemma FailuresSlide(window: seq<bool>, failed: bool)
    ensures Failures(window + [failed]) == Failures(window) + (if failed then 1 else 0)
    ensures window != [] ==>
              Failures(window[1..] + [failed]) ==
              Failures(window) - (if window[0] then 1 else 0) + (if failed then 1 else 0)
  {
    assert (window + [failed])[..|window|] == window;
    if window != [] {
      assert window == [window[0]] + window[1..];
      FailuresConcat([window[0]], window[1..]);
      assert (window[1..] + [failed])[..|window| - 1] == window[1..];
    }
  }

  /** Record's updates move the ring, the counters and the history together. */
  lemma OutcomeFiled(
    cfg: Settings, history: seq<bool>, ring: seq<bool>, pos: nat, filled: nat, failures: int, consecutive: int,
    failed: bool)
    requires Live(cfg, history, ring, pos, filled, failures, consecutive)
    ensures Live(
              cfg, history + [failed], ring[pos := failed], (pos + 1) % cfg.window,
              if filled < cfg.window then filled + 1 else filled,
              failures - (if filled == cfg.window && ring[pos] then 1 else 0) + (if failed then 1 else 0),
              if failed then consecutive + 1 else 0)
  {
    WrapPosition(pos, cfg.window);
    RingSlides(ring, pos, filled, failed);
    WindowSlides(history, cfg.window, failed);
    FailuresSlide(LastOf(history, cfg.window), failed);
    WindowFilled(history, cfg.window);
    WindowFilled(history + [failed], cfg.window);
    TrailingNext(history, failed);
    hide RingOf, LastOf, Failures, TrailingFailures;
  }

  lemma WindowFilled(history: seq<bool>, window: nat)
    ensures |LastOf(history, window)| == if |history| < window then |history| else window
    ensures |history| < window ==> LastOf(history, window) == history
  {
  }

  lemma TrailingNext(history: seq<bool>, failed: bool)
    ensures TrailingFailures(history + [failed]) == if failed then TrailingFailures(history) + 1 else 0
  {
    assert (history + [failed])[..|history|] == history;
  }

  /** The thresholds Record compares are those of the reference. */
  lemma MeetsWhenLive(
    cfg: Settings, history: seq<bool>, ring: seq<bool>, pos: nat, filled: nat, failures: int, consecutive: int)
    requires Live(cfg, history, ring, pos, filled, failures, consecutive) && filled > 0
    ensures Meets(cfg, history) <==>
            || (cfg.consecutiveFailures > 0 && consecutive >= cfg.consecutiveFailures)
            || (cfg.errorRate > 0.0 && filled == cfg.window && failures as real / filled as real >= cfg.errorRate)
  {
    RateOverWindow(failures, filled, cfg.errorRate);
  }

  lemma RateOverWindow(failures: int, window: nat, rate: real)
    requires window >= 1
    ensures failures as real / window as real >= rate <==> failures as real >= rate * window as real
  {
    var w := window as real;
    assert failures as real == failures as real / w * w;
  }
}
