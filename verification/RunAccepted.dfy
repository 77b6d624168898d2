/** A profile the run command accepts is run whole: the budget never cuts it
    short, and only the breaker or a signal can.
 */
module RunAccepted {
  import opened Common
  import opened Profile
  import opened RunEngine
  import RunOutcome
  import RunAccounting
  import BreakerSpec
  import QuotaSpec

  /** The setup the run command builds from an accepted profile. */
  ghost predicate AcceptedSetup(c: Setup, l: Limits, p: Profile, requested: int) {
    && ValidLimits(l) && Valid(p) && requested > 0 && RunAccepts(l, p, requested)
    && c.stages == p.stages && c.hardCap == l.hardCap && c.budget == QuotaSpec.Clamped(requested, l.hardCap)
    && c.maxConcurrency >= 1
  }

  /** The plan fits the budget, stage by stage, and every stage plans something. */
  ghost predicate Fits(c: Setup) {
    && (forall i :: 0 <= i < |c.stages| ==> ValidStage(c.stages[i]))
    && RunOutcome.PlannedUpTo(c.stages, |c.stages|) <= c.budget
    && (c.hardCap > 0 ==> c.budget <= c.hardCap)
  }

  lemma {:induction false} PlannedUpToIsSum(stages: seq<Stage>, n: nat)
    requires n <= |stages|
    requires forall i :: 0 <= i < |stages| ==> ValidStage(stages[i])
    ensures RunOutcome.PlannedUpTo(stages, n) == SumPlanned(stages[..n])
  {
    if n > 0 {
      PlannedUpToIsSum(stages, n - 1);
      assert stages[..n][..n - 1] == stages[..n - 1];
    }
  }

  lemma AcceptedSetupFits(c: Setup, l: Limits, p: Profile, requested: int)
    requires AcceptedSetup(c, l, p, requested)
    ensures Fits(c) && RunOutcome.PlannedUpTo(c.stages, |c.stages|) == SumPlanned(p.stages)
    ensures c.budget == requested
  {
    AcceptedFits(l, p, requested);
    BudgetWithinLimits(l, requested);
    PlannedUpToIsSum(p.stages, |p.stages|);
    assert p.stages[..|p.stages|] == p.stages;
  }

  // ----- the invariant: no truncation, no shortage, no error

  ghost predicate Inv(c: Setup, s: State) {
    && !s.issuer.truncated && !s.issuer.err.BadRate?
    && (s.ctl.reason.Some? ==> s.ctl.reason.value == AutoAbort)
    && (s.issuer.pc.CallStop? ==> s.issuer.pc.resume == Guarding && s.ctl.stopped)
    && !s.issuer.pc.CallClose? && !s.issuer.pc.TruncGuard?
  }

  /** While a stage is being issued, the unit it is about to take is within the
      budget. */
  lemma RoomLeft(c: Setup, s: State)
    requires Fits(c) && RunOutcome.ProgressInv(c, s) && !s.issuer.truncated
    ensures s.issuer.pc.PlanStage? ==>
              && s.issuer.stage < |c.stages| && 1 <= Planned(c.stages[s.issuer.stage])
              && s.ctl.used + Planned(c.stages[s.issuer.stage]) <= c.budget
    ensures s.issuer.pc.LoadUsed? ==> QuotaSpec.Available(s.ctl.used, c.budget, c.hardCap)
  {
    if s.issuer.pc.PlanStage? || s.issuer.pc.LoadUsed? {
      var i := s.issuer.stage;
      assert ValidStage(c.stages[i]);
      hide Planned, InSequential;
      RunOutcome.PlannedUpToGrows(c.stages, i + 1, |c.stages|);
    }
  }

  lemma PlanKept(c: Setup, s: State)
    requires Fits(c) && RunOutcome.ProgressInv(c, s) && Inv(c, s) && s.issuer.pc.PlanStage?
    ensures Inv(c, PlanStep(c, s))
  {
    RoomLeft(c, s);
    assert ValidStage(c.stages[s.issuer.stage]);
    hide Planned;
  }

  lemma PlanningKept(c: Setup, s: State, alt: bool)
    requires Fits(c) && RunOutcome.ProgressInv(c, s) && Inv(c, s)
    ensures s.issuer.pc.TopStopped? || s.issuer.pc.TopCancelled? || s.issuer.pc.PlanStage? || s.issuer.pc.NextStage?
            ==> Inv(c, PlanningStep(c, s, alt))
  {
    if s.issuer.pc.PlanStage? {
      PlanKept(c, s);
    }
    hide PlanStep, RunOutcome.ProgressInv;
  }

  lemma CheckingKept(c: Setup, s: State, alt: bool)
    requires Inv(c, s)
    ensures Inv(c, CheckingStep(c, s, alt))
  {
    hide InSequential;
  }

  lemma TakingKept(c: Setup, s: State)
    requires Fits(c) && RunOutcome.ProgressInv(c, s) && RunOutcome.StopInv(c, s) && Inv(c, s)
    ensures Inv(c, TakingStep(c, s))
  {
    RoomLeft(c, s);
    hide QuotaSpec.Available, RunOutcome.ProgressInv, BreakerSpec.Tripped;
  }

  lemma ReturningKept(c: Setup, s: State)
    requires Inv(c, s)
    ensures Inv(c, ReturningStep(c, s))
  {
    hide InSequential;
  }

  lemma EndingKept(c: Setup, s: State)
    requires RunOutcome.ProgressInv(c, s) && Inv(c, s)
    ensures s.issuer.pc.StageEnd? || s.issuer.pc.ErrorCheck? || s.issuer.pc.EndStopped? || s.issuer.pc.EndCancelled?
            ==> Inv(c, EndingStep(s))
  {
    hide InSequential, Planned;
  }

  lemma IssueKept(c: Setup, s: State, alt: bool)
    requires Fits(c) && RunOutcome.StopInv(c, s) && RunOutcome.ProgressInv(c, s) && Inv(c, s)
    requires IssueEnabled(c, s, alt)
    ensures Inv(c, IssueStep(c, s, alt))
  {
    hide Fits, Inv, RunOutcome.ProgressInv, RunOutcome.StopInv, IssueEnabled;
    hide PlanningStep, CheckingStep, TakingStep, LaunchStep, ReturningStep, EndingStep, StoppingStep, FinishingStep;
    match s.issuer.pc
    case TopStopped | TopCancelled | PlanStage | NextStage => PlanningKept(c, s, alt);
    case LoopTop | Sleep | StopCheck | CancelCheck | TakeSlot | AwaitSlot => CheckingKept(c, s, alt);
    case ClosedCheck | LoadUsed | Swap | MarkSent => TakingKept(c, s);
    case Launch => LaunchKept(c, s);
    case AwaitInline | Guard | FreeSlot | TruncGuard => ReturningKept(c, s);
    case StageEnd | ErrorCheck | EndStopped | EndCancelled => EndingKept(c, s);
    case CallStop(_, _) => StoppingKept(c, s);
    case CallClose(_) => StoppingKept(c, s);
    case _ => FinishingKept(c, s, alt);
  }

  lemma LaunchKept(c: Setup, s: State)
    requires Inv(c, s)
    ensures Inv(c, LaunchStep(c, s))
  {
    hide InSequential;
  }

  lemma StoppingKept(c: Setup, s: State)
    requires Inv(c, s)
    ensures Inv(c, StoppingStep(s))
  {
  }

  lemma FinishingKept(c: Setup, s: State, alt: bool)
    requires Inv(c, s)
    ensures Inv(c, FinishingStep(s, alt))
  {
  }

  lemma StepKeepsInv(c: Setup, s: State, e: Event)
    requires Fits(c) && RunOutcome.Inv(c, s) && Inv(c, s) && Enabled(c, s, e)
    ensures Inv(c, Next(c, s, e))
  {
    if e.Issue? {
      IssueKept(c, s, e.alt);
      hide IssueStep;
    } else {
      hide Planned, InSequential, BreakerSpec.Tripped, RunOutcome.Inv, IssueStep;
    }
  }

  lemma {:induction false} RunKeepsInv(c: Setup, s: State, events: seq<Event>, t: State)
    requires Fits(c) && RunOutcome.Inv(c, s) && Inv(c, s) && Executes(c, s, events, t)
    ensures Inv(c, t)
    decreases |events|
  {
    if events != [] {
      StepKeepsInv(c, s, events[0]);
      RunOutcome.StepKeepsInv(c, s, events[0]);
      RunKeepsInv(c, Next(c, s, events[0]), events[1..], t);
    }
  }

  // ----- main results

  /** No stage of an accepted profile is ever truncated, and the budget never
      runs out under it: the only stop is the breaker's, and a unit is refused
      only once that stop has closed the quota. */
  lemma AcceptedNeverShort(c: Setup, l: Limits, p: Profile, requested: int, s: State, events: seq<Event>, t: State)
    requires AcceptedSetup(c, l, p, requested) && Initial(s) && Executes(c, s, events, t)
    ensures !t.issuer.truncated
    ensures t.ctl.reason == None || (t.ctl.reason == Some(AutoAbort) && BreakerSpec.Tripped(c.breaker, t.history))
    ensures t.issuer.pc.CallStop? || t.issuer.pc.Guard? ==> t.ctl.stopped
    ensures t.ctl.used <= SumPlanned(p.stages) <= requested
  {
    AcceptedSetupFits(c, l, p, requested);
    RunOutcome.InitialInv(c, s);
    RunOutcome.RunKeepsInv(c, s, events, t);
    RunKeepsInv(c, s, events, t);
    UsedWithinPlan(c, s, events, t);
    hide RunOutcome.ProgressInv, RunOutcome.LateInv, RunOutcome.TripInv, BreakerSpec.Tripped;
  }

  /** What has been taken is never more than what the stages plan. */
  ghost predicate WithinPlan(c: Setup, s: State) {
    s.ctl.used <= RunOutcome.PlannedUpTo(c.stages, |c.stages|)
  }

  lemma StepKeepsPlan(c: Setup, s: State, e: Event)
    requires RunOutcome.ProgressInv(c, s) && WithinPlan(c, s) && Enabled(c, s, e)
    requires !s.issuer.truncated
    ensures WithinPlan(c, Next(c, s, e))
  {
    if e.Issue? && s.issuer.pc.Swap? {
      RunOutcome.PlannedUpToGrows(c.stages, s.issuer.stage + 1, |c.stages|);
      hide Planned, BreakerSpec.Tripped, InSequential, RunOutcome.PlannedUpTo;
      assert RunOutcome.PlannedUpTo(c.stages, s.issuer.stage + 1) >=
             RunOutcome.PlannedUpTo(c.stages, s.issuer.stage) + s.issuer.planned by {
        NextPlanned(c.stages, s.issuer.stage);
      }
    } else {
      UsedMovesOnlyAtSwap(c, s, e);
    }
  }

  lemma NextPlanned(stages: seq<Stage>, i: nat)
    requires i < |stages|
    ensures RunOutcome.PlannedUpTo(stages, i + 1) >= RunOutcome.PlannedUpTo(stages, i) + Planned(stages[i])
  {
  }

  lemma UsedMovesOnlyAtSwap(c: Setup, s: State, e: Event)
    requires Enabled(c, s, e) && !(e.Issue? && s.issuer.pc.Swap?)
    ensures Next(c, s, e).ctl.used == s.ctl.used
  {
    hide Planned, BreakerSpec.Tripped, InSequential, QuotaSpec.Available;
  }

  lemma {:induction false} PlanKeptByRun(c: Setup, s: State, events: seq<Event>, t: State)
    requires Fits(c) && RunOutcome.Inv(c, s) && Inv(c, s) && WithinPlan(c, s) && Executes(c, s, events, t)
    ensures WithinPlan(c, t)
    decreases |events|
  {
    if events != [] {
      StepKeepsInv(c, s, events[0]);
      StepKeepsPlan(c, s, events[0]);
      RunOutcome.StepKeepsInv(c, s, events[0]);
      PlanKeptByRun(c, Next(c, s, events[0]), events[1..], t);
    }
  }

  lemma UsedWithinPlan(c: Setup, s: State, events: seq<Event>, t: State)
    requires Fits(c) && Initial(s) && Executes(c, s, events, t)
    ensures WithinPlan(c, t)
  {
    RunOutcome.InitialInv(c, s);
    RunOutcome.PlannedUpToGrows(c.stages, 0, |c.stages|);
    PlanKeptByRun(c, s, events, t);
  }

  /** The outcome of an accepted profile is completed, interrupted, aborted by
      the breaker, or a failure to authenticate before anything was sent; if it
      is not partial, every planned request was issued, answered for in every
      counter, and has its audit row unless the sink failed to write it. */
  lemma AcceptedOutcome(c: Setup, l: Limits, p: Profile, requested: int, s: State, events: seq<Event>, t: State)
    requires AcceptedSetup(c, l, p, requested) && Initial(s) && Executes(c, s, events, t)
    requires t.issuer.pc == Done
    ensures t.outcome.reason != QuotaExhausted
    ensures t.outcome.reason == Error ==> t.outcome.quotaUsed == 0
    ensures t.outcome.reason == AutoAbort ==> BreakerSpec.Tripped(c.breaker, t.history)
    ensures t.outcome.reason == Completed ==> t.ctl.used == SumPlanned(p.stages)
    ensures !t.outcome.partial ==>
              && t.outcome.quotaUsed == t.counts.sent == t.counts.completed == SumPlanned(p.stages)
              && t.counts.success + t.counts.failure == t.counts.classes == t.counts.samples == SumPlanned(p.stages)
              && t.counts.rows + t.counts.lost == SumPlanned(p.stages)
  {
    AcceptedSetupFits(c, l, p, requested);
    AcceptedNeverShort(c, l, p, requested, s, events, t);
    RunOutcome.OutcomeMeans(c, s, events, t);
    RunAccounting.InitialInv(c, s);
    RunAccounting.RunKeepsInv(c, s, events, t);
    if !t.outcome.partial {
      RunAccounting.AccountedAfterDrain(c, s, events, t);
    }
    hide RunAccounting.Counted, RunAccounting.Judged, RunAccounting.Awaited, RunAccounting.Slotted;
    hide RunAccounting.Inlined, RunAccounting.Guarded, RunAccounting.Budgeted, BreakerSpec.Tripped, AcceptedSetup;
  }
}
