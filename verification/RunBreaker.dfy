/** What the run engine feeds the circuit breaker: the outcome of every attempt,
    once, but for those that failed only because the run cancelled them.
 */
module RunBreaker {
  import opened Common
  import opened Fold
  import opened Profile
  import opened RunEngine
  import RunAccounting
  import RunOutcome
  import BreakerSpec
  import QuotaSpec

  /** The attempt has been filed with the breaker. */
  predicate Filed(j: Job) {
    j.pc > BREAK && !j.own
  }

  function FiledBy(): Job -> int {
    (j: Job) => if Filed(j) then 1 else 0
  }

  function FailedBy(): Job -> int {
    (j: Job) => if Filed(j) && !j.ok then 1 else 0
  }

  ghost predicate Fed(s: State) {
    && |s.history| == Sum(s.jobs, FiledBy())
    && BreakerSpec.Failures(s.history) == Sum(s.jobs, FailedBy())
  }

  /** A step of an attempt hands the breaker its outcome, or nothing. */
  lemma JobFeeds(c: Setup, s: State, e: Event)
    requires Enabled(c, s, e) && (e.Land? || e.Work?)
    ensures var t, w := Next(c, s, e), s.jobs[e.job];
            && |t.jobs| == |s.jobs| && (w.pc > ATTEMPT ==> t.jobs[e.job].own == w.own)
            && t.history == s.history + if w.pc == BREAK && !w.own then [!w.ok] else []
  {
    hide BreakerSpec.Tripped;
    assert s.history + [] == s.history;
  }

  lemma FedByJob(c: Setup, s: State, e: Event)
    requires Fed(s) && Enabled(c, s, e) && (e.Land? || e.Work?)
    ensures Fed(Next(c, s, e))
  {
    JobFeeds(c, s, e);
    RunAccounting.JobMoves(c, s, e);
    var t, w := Next(c, s, e), s.jobs[e.job];
    var x := t.jobs[e.job];
    hide Next, Enabled, Sum;
    SumUpdate(s.jobs, e.job, x, FiledBy());
    SumUpdate(s.jobs, e.job, x, FailedBy());
    FailuresNext(s.history, !w.ok);
    hide BreakerSpec.Failures;
    assert s.history + [] == s.history;
  }

  lemma FailuresNext(history: seq<bool>, failed: bool)
    ensures BreakerSpec.Failures(history + [failed]) == BreakerSpec.Failures(history) + if failed then 1 else 0
  {
    assert (history + [failed])[..|history|] == history;
  }

  lemma FedByIssuer(c: Setup, s: State, alt: bool)
    requires Fed(s) && RunAccounting.IssuerInv(c, s) && IssueEnabled(c, s, alt)
    ensures Fed(IssueStep(c, s, alt))
  {
    if s.issuer.pc.Launch? {
      hide InSequential;
      var x := IssueStep(c, s, alt).jobs[|s.jobs|];
      SumAppend(s.jobs, x, FiledBy());
      SumAppend(s.jobs, x, FailedBy());
    } else {
      RunAccounting.IssuerStepKept(c, s, alt);
      hide IssueStep, RunAccounting.IssuerInv;
    }
  }

  lemma StepKeepsFed(c: Setup, s: State, e: Event)
    requires Fed(s) && RunAccounting.Inv(c, s) && Enabled(c, s, e)
    ensures Fed(Next(c, s, e))
  {
    hide Fed, IssueStep, WorkStep;
    match e
    case Issue(alt) => FedByIssuer(c, s, alt);
    case Land(_, _, _) => FedByJob(c, s, e);
    case Work(_, _) => FedByJob(c, s, e);
    case Cancel => FedElsewhere(s, Next(c, s, e));
    case PrimeAuth(_) => FedElsewhere(s, Next(c, s, e));
  }

  lemma FedElsewhere(s: State, t: State)
    requires Fed(s) && t.jobs == s.jobs && t.history == s.history
    ensures Fed(t)
  {
  }

  lemma {:induction false} RunKeepsFed(c: Setup, s: State, events: seq<Event>, t: State)
    requires Fed(s) && RunAccounting.Inv(c, s) && Executes(c, s, events, t)
    ensures Fed(t)
    decreases |events|
  {
    hide Fed, RunAccounting.Inv, Next, Enabled;
    if events != [] {
      StepKeepsFed(c, s, events[0]);
      RunAccounting.StepKeepsInv(c, s, events[0]);
      RunKeepsFed(c, Next(c, s, events[0]), events[1..], t);
    }
  }

  // ----- a stop before the outcome is read

  predicate Read(pc: Pc) {
    match pc
    case ReadCancel | Done => true
    case _ => false
  }

  /** A drained run that has read no stop has none, then or later. */
  ghost predicate Settled(s: State) {
    Read(s.issuer.pc) && s.issuer.drained && (s.outcome.reason == Completed || s.outcome.reason == Signal) ==>
      !s.ctl.stopped
  }

  lemma SettledByIssuer(c: Setup, s: State, alt: bool)
    requires Settled(s) && RunOutcome.StopInv(c, s) && IssueEnabled(c, s, alt)
    ensures Settled(IssueStep(c, s, alt))
  {
    hide Settled, PlanningStep, CheckingStep, TakingStep, LaunchStep, ReturningStep, EndingStep, StoppingStep, FinishingStep;
    NotYetRead(c, s, alt);
    match s.issuer.pc
    case TopStopped | TopCancelled | PlanStage | NextStage => UnreadIsSettled(PlanningStep(c, s, alt));
    case LoopTop | Sleep | StopCheck | CancelCheck | TakeSlot | AwaitSlot => UnreadIsSettled(CheckingStep(c, s, alt));
    case ClosedCheck | LoadUsed | Swap | MarkSent => UnreadIsSettled(TakingStep(c, s));
    case Launch => UnreadIsSettled(LaunchStep(c, s));
    case AwaitInline | Guard | FreeSlot | TruncGuard => UnreadIsSettled(ReturningStep(c, s));
    case StageEnd | ErrorCheck | EndStopped | EndCancelled => UnreadIsSettled(EndingStep(s));
    case CallStop(_, _) => UnreadIsSettled(StoppingStep(s));
    case CallClose(_) => UnreadIsSettled(StoppingStep(s));
    case _ => SettledByFinishing(c, s, alt);
  }

  lemma UnreadIsSettled(s: State)
    requires !Read(s.issuer.pc)
    ensures Settled(s)
  {
  }

  lemma SettledByFinishing(c: Setup, s: State, alt: bool)
    requires Settled(s) && RunOutcome.StopInv(c, s)
    requires s.issuer.pc.Drain? || s.issuer.pc.ReadReason? || s.issuer.pc.ReadCancel?
    ensures Settled(FinishingStep(s, alt))
  {
    hide BreakerSpec.Tripped;
  }

  /** No other step leads to where the outcome has been read. */
  lemma NotYetRead(c: Setup, s: State, alt: bool)
    ensures !Read(s.issuer.pc) ==> !Read(PlanningStep(c, s, alt).issuer.pc) && !Read(CheckingStep(c, s, alt).issuer.pc)
    ensures !Read(s.issuer.pc) ==> !Read(TakingStep(c, s).issuer.pc) && !Read(LaunchStep(c, s).issuer.pc)
    ensures !Read(s.issuer.pc) ==> !Read(ReturningStep(c, s).issuer.pc) && !Read(EndingStep(s).issuer.pc)
    ensures !Read(s.issuer.pc) ==> !Read(StoppingStep(s).issuer.pc)
  {
    NotReadPlanning(c, s, alt);
    NotReadChecking(c, s, alt);
    NotReadTaking(c, s);
    NotReadEnding(c, s);
    hide *;
  }

  lemma NotReadPlanning(c: Setup, s: State, alt: bool)
    ensures !Read(s.issuer.pc) ==> !Read(PlanningStep(c, s, alt).issuer.pc)
  {
    hide Planned;
  }

  lemma NotReadChecking(c: Setup, s: State, alt: bool)
    ensures !Read(s.issuer.pc) ==> !Read(CheckingStep(c, s, alt).issuer.pc)
  {
    hide InSequential;
  }

  lemma NotReadTaking(c: Setup, s: State)
    ensures !Read(s.issuer.pc) ==> !Read(TakingStep(c, s).issuer.pc) && !Read(LaunchStep(c, s).issuer.pc)
  {
    hide InSequential, QuotaSpec.Available;
  }

  lemma NotReadEnding(c: Setup, s: State)
    ensures !Read(s.issuer.pc) ==> !Read(ReturningStep(c, s).issuer.pc) && !Read(EndingStep(s).issuer.pc)
    ensures !Read(s.issuer.pc) ==> !Read(StoppingStep(s).issuer.pc)
  {
    hide InSequential;
  }

  lemma SettledByJob(c: Setup, s: State, e: Event)
    requires Settled(s) && RunAccounting.Inv(c, s) && Enabled(c, s, e) && (e.Land? || e.Work?)
    ensures Settled(Next(c, s, e))
  {
    if s.issuer.drained {
      RunAccounting.NoneWaiting(s.jobs, e.job);
    } else {
      RunOutcome.JobFrame(c, s, e);
    }
    hide Next, Sum, Settled;
    if !s.issuer.drained {
      UndrainedIsSettled(Next(c, s, e));
    }
  }

  lemma UndrainedIsSettled(s: State)
    requires !s.issuer.drained
    ensures Settled(s)
  {
  }

  lemma SettledElsewhere(c: Setup, s: State, e: Event)
    requires Settled(s) && RunAccounting.Inv(c, s) && Enabled(c, s, e) && (e.Cancel? || e.PrimeAuth?)
    ensures Settled(Next(c, s, e))
  {
    hide Sum;
  }

  lemma StepKeepsSettled(c: Setup, s: State, e: Event)
    requires Settled(s) && RunAccounting.Inv(c, s) && RunOutcome.StopInv(c, s) && Enabled(c, s, e)
    ensures Settled(Next(c, s, e))
  {
    hide Settled, RunAccounting.Inv, RunOutcome.StopInv, IssueStep, WorkStep;
    match e
    case Issue(alt) => SettledByIssuer(c, s, alt);
    case Land(_, _, _) => SettledByJob(c, s, e);
    case Work(_, _) => SettledByJob(c, s, e);
    case Cancel => SettledElsewhere(c, s, e);
    case PrimeAuth(_) => SettledElsewhere(c, s, e);
  }

  lemma {:induction false} RunKeepsSettled(c: Setup, s: State, events: seq<Event>, t: State)
    requires Settled(s) && RunAccounting.Inv(c, s) && RunOutcome.Inv(c, s) && Executes(c, s, events, t)
    ensures Settled(t)
    decreases |events|
  {
    hide Settled, RunAccounting.Inv, RunOutcome.StopInv, RunOutcome.TripInv, RunOutcome.LateInv, RunOutcome.ProgressInv;
    hide Next, Enabled;
    if events != [] {
      StepKeepsSettled(c, s, events[0]);
      RunAccounting.StepKeepsInv(c, s, events[0]);
      RunOutcome.StepKeepsInv(c, s, events[0]);
      RunKeepsSettled(c, Next(c, s, events[0]), events[1..], t);
    }
  }

  // ----- main results

  /** In every reachable state the breaker has seen the outcome of each attempt
      that is past it, failures as failures, and nothing else. */
  lemma BreakerSeesOutcomes(c: Setup, s: State, events: seq<Event>, t: State)
    requires c.maxConcurrency >= 1 && Initial(s) && Executes(c, s, events, t)
    ensures |t.history| == Sum(t.jobs, FiledBy())
    ensures multiset(t.history)[true] == Sum(t.jobs, FailedBy())
    ensures multiset(t.history)[false] == Sum(t.jobs, FiledBy()) - Sum(t.jobs, FailedBy())
  {
    RunAccounting.InitialInv(c, s);
    RunKeepsFed(c, s, events, t);
    BreakerSpec.FailuresCounted(t.history);
    SplitInTwo(t.history);
  }

  lemma {:induction false} SplitInTwo(history: seq<bool>)
    ensures multiset(history)[true] + multiset(history)[false] == |history|
  {
    if history == [] {
      assert multiset(history) == multiset{};
    } else {
      var n := |history| - 1;
      SplitInTwo(history[..n]);
      assert history == history[..n] + [history[n]];
      assert multiset(history) == multiset(history[..n]) + multiset{history[n]};
      assert multiset{history[n]}[true] + multiset{history[n]}[false] == 1 by {
        if history[n] {
          assert multiset{true}[false] == 0;
        } else {
          assert multiset{false}[true] == 0;
        }
      }
    }
  }

  /** Every attempt's outcome has been filed and has come back. */
  predicate AllReturned(jobs: seq<Job>) {
    forall j :: 0 <= j < |jobs| ==> jobs[j].pc >= RETURN
  }

  /** Once the outcomes filed include as many failures in a row as configured, or
      a window with the configured share of them, and the attempts have
      returned, the run is stopped; and only such outcomes abort a run. */
  lemma FailuresAbort(c: Setup, s: State, events: seq<Event>, t: State)
    requires c.breaker.window >= 1 && Initial(s) && Executes(c, s, events, t)
    ensures var n, w, rate := c.breaker.consecutiveFailures, c.breaker.window, c.breaker.errorRate;
            var tripped := (n > 0 && exists i :: BreakerSpec.FailureRun(t.history, i, n))
                           || (rate > 0.0 && exists i :: BreakerSpec.FailureShare(t.history, i, w, rate));
            && (tripped && AllReturned(t.jobs) ==> t.ctl.stopped)
            && (t.ctl.reason == Some(AutoAbort) ==> tripped)
  {
    RunOutcome.AbortIsTheBreakers(c, s, events, t);
    BreakerSpec.TripsExactly(c.breaker, t.history);
  }

  /** A provider that fails every attempt is not spent a plan on: once as many
      attempts as the breaker allows in a row have come back, all failed, the run
      is stopped, and it is never reported complete. */
  lemma DeadProviderStopsRun(c: Setup, s: State, events: seq<Event>, t: State)
    requires c.maxConcurrency >= 1 && c.breaker.window >= 1 && c.breaker.consecutiveFailures > 0
    requires Initial(s) && Executes(c, s, events, t)
    requires forall j :: 0 <= j < |t.jobs| && t.jobs[j].pc > ATTEMPT ==> !t.jobs[j].ok && !t.jobs[j].own
    requires AllReturned(t.jobs) && |t.jobs| >= c.breaker.consecutiveFailures
    ensures t.ctl.stopped
    ensures t.issuer.pc.Done? ==> t.outcome.partial && (t.issuer.drained ==> t.outcome.reason != Completed)
  {
    BreakerSeesOutcomes(c, s, events, t);
    AllFailed(t.jobs);
    SumOnes(t.jobs, FiledBy());
    SplitInTwo(t.history);
    OnlyFailures(t.history);
    assert BreakerSpec.FailureRun(t.history, 0, c.breaker.consecutiveFailures);
    FailuresAbort(c, s, events, t);
    if t.issuer.pc.Done? {
      StopIsReported(c, s, events, t);
    }
  }

  /** A run that was stopped is not reported complete, unless the grace period
      ran out first; and then it is reported partial. */
  lemma StopIsReported(c: Setup, s: State, events: seq<Event>, t: State)
    requires c.maxConcurrency >= 1 && Initial(s) && Executes(c, s, events, t)
    requires t.issuer.pc.Done? && t.ctl.stopped
    ensures t.outcome.partial && (t.issuer.drained ==> t.outcome.reason != Completed && t.outcome.reason != Signal)
  {
    RunAccounting.InitialInv(c, s);
    RunOutcome.InitialInv(c, s);
    RunKeepsSettled(c, s, events, t);
    RunOutcome.OutcomeMeans(c, s, events, t);
  }

  lemma AllFailed(jobs: seq<Job>)
    requires forall j :: 0 <= j < |jobs| ==> jobs[j].pc >= RETURN && !jobs[j].ok && !jobs[j].own
    ensures Sum(jobs, FailedBy()) == |jobs|
  {
    SumOnes(jobs, FailedBy());
  }

  lemma OnlyFailures(history: seq<bool>)
    requires multiset(history)[false] == 0
    ensures forall i :: 0 <= i < |history| ==> history[i]
  {
    forall i | 0 <= i < |history| ensures history[i] {
      assert history[i] in multiset(history);
    }
  }
}
