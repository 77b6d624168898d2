/** What a run reported as ended for lack of quota says about the budget: the
    plan did not fit, and the budget is used up unless the operator interrupted
    the stage that was cut down to it.
 */
module RunQuota {
  import opened Common
  import opened Profile
  import opened RunEngine
  import opened RunOutcome
  import RunAccounting
  import BreakerSpec
  import QuotaSpec

  /** Valid stages and a budget within the cap, as NewQuota leaves it. */
  ghost predicate Sound(c: Setup) {
    && (forall i :: 0 <= i < |c.stages| ==> ValidStage(c.stages[i]))
    && (c.hardCap > 0 ==> c.budget <= c.hardCap)
  }

  ghost function Plan(c: Setup): int {
    PlannedUpTo(c.stages, |c.stages|)
  }

  /** The last stage issued was cut down to the budget and then interrupted. */
  predicate CutShort(i: Issuer) {
    i.truncated && i.err.Interrupted?
  }

  /** What holds once the run is stopped for lack of quota. */
  ghost predicate Short(c: Setup, s: State) {
    && Plan(c) > Max(c.budget, 0)
    && (s.ctl.used < c.budget <==> CutShort(s.issuer))
    && (CutShort(s.issuer) ==> s.ctl.cancelled)
  }

  predicate BetweenStages(pc: Pc) {
    match pc
    case TopStopped | TopCancelled | PlanStage | NextStage => true
    case _ => false
  }

  /** Where the issuer can be once the quota has stopped the run. */
  predicate Leaving(pc: Pc) {
    match pc
    case CallClose(_) => true
    case TruncGuard | ErrorCheck | EndStopped | Drain | ReadReason | ReadCancel | Done => true
    case _ => false
  }

  /** The stage under way is planned within the budget: in full, or cut down to
      exactly what is left. */
  ghost predicate Fitted(c: Setup, s: State) {
    && s.issuer.stage < |c.stages|
    && var left := c.budget - PlannedUpTo(c.stages, s.issuer.stage);
       && s.issuer.planned <= left
       && (s.issuer.truncated ==> s.issuer.planned == left < Planned(c.stages[s.issuer.stage]))
  }

  /** How a stage that was cut down ended. */
  ghost predicate Ended(c: Setup, s: State) {
    s.issuer.truncated ==>
      && (s.issuer.err.NoError? ==> s.ctl.used >= c.budget)
      && (s.issuer.err.Interrupted? ==> s.ctl.used < c.budget)
  }

  /** A rate is never found wanting. */
  predicate RateChecked(i: Issuer) {
    match i.pc
    case StageEnd | ErrorCheck | TruncGuard => !i.err.BadRate?
    case CallStop(_, resume) => resume.TruncGuarding? ==> !i.err.BadRate?
    case CallClose(resume) => !resume.Guarding? && (resume.TruncGuarding? ==> !i.err.BadRate?)
    case _ => true
  }

  ghost predicate StopsShort(c: Setup, s: State, reason: Reason, resume: Resume) {
    && reason == QuotaExhausted
    && (s.ctl.stopped || (!resume.Guarding? && Short(c, s)))
  }

  ghost predicate QuotaInv(c: Setup, s: State) {
    && (s.issuer.truncated ==> Plan(c) > Max(c.budget, 0))
    && (Issuing(s.issuer.pc) ==> Fitted(c, s))
    && (BetweenStages(s.issuer.pc) || s.issuer.pc.Prime? ==> !s.issuer.truncated)
    && (s.issuer.pc.StageEnd? ==> Ended(c, s))
    && RateChecked(s.issuer)
    && (s.issuer.pc.CallStop? ==> StopsShort(c, s, s.issuer.pc.reason, s.issuer.pc.resume))
    && (s.ctl.reason == Some(QuotaExhausted) ==> Short(c, s) && Leaving(s.issuer.pc))
  }

  // ----- the issuer keeps it

  lemma PlanGrows(c: Setup, s: State)
    requires Sound(c) && ProgressInv(c, s) && s.issuer.pc.PlanStage?
    ensures s.issuer.stage < |c.stages| && ValidStage(c.stages[s.issuer.stage])
    ensures s.ctl.used == PlannedUpTo(c.stages, s.issuer.stage)
    ensures 1 <= Planned(c.stages[s.issuer.stage]) && s.ctl.used + Planned(c.stages[s.issuer.stage]) <= Plan(c)
  {
    var i := s.issuer.stage;
    assert ValidStage(c.stages[i]);
    PlannedUpToGrows(c.stages, i + 1, |c.stages|);
  }

  lemma PlanKept(c: Setup, s: State)
    requires Sound(c) && ProgressInv(c, s) && QuotaInv(c, s) && s.issuer.pc.PlanStage?
    ensures QuotaInv(c, PlanStep(c, s))
  {
    PlanGrows(c, s);
    PlannedUpToGrows(c.stages, 0, s.issuer.stage);
    hide Planned, PlannedUpTo, Plan, ProgressInv;
  }

  lemma PlanningKept(c: Setup, s: State, alt: bool)
    requires Sound(c) && StopInv(c, s) && ProgressInv(c, s) && QuotaInv(c, s) && BetweenStages(s.issuer.pc)
    ensures QuotaInv(c, PlanningStep(c, s, alt))
  {
    if s.issuer.pc.PlanStage? {
      PlanKept(c, s);
    }
    hide PlanStep, ProgressInv, Plan, Fitted, BreakerSpec.Tripped;
  }

  lemma CheckingKept(c: Setup, s: State, alt: bool)
    requires ProgressInv(c, s) && QuotaInv(c, s) && IssueEnabled(c, s, alt)
    requires s.issuer.pc.LoopTop? || s.issuer.pc.Sleep? || s.issuer.pc.StopCheck? || s.issuer.pc.CancelCheck?
             || s.issuer.pc.TakeSlot? || s.issuer.pc.AwaitSlot?
    ensures QuotaInv(c, CheckingStep(c, s, alt))
  {
    hide InSequential, Planned, PlannedUpTo, Plan, Short;
  }

  lemma TakingKept(c: Setup, s: State)
    requires Sound(c) && StopInv(c, s) && ProgressInv(c, s) && QuotaInv(c, s)
    requires s.issuer.pc.ClosedCheck? || s.issuer.pc.LoadUsed? || s.issuer.pc.Swap? || s.issuer.pc.MarkSent?
    ensures QuotaInv(c, TakingStep(c, s))
  {
    hide InSequential, Planned, PlannedUpTo, Plan, Short, BreakerSpec.Tripped;
  }

  lemma LaunchKept(c: Setup, s: State)
    requires QuotaInv(c, s) && s.issuer.pc.Launch?
    ensures QuotaInv(c, LaunchStep(c, s))
  {
    hide InSequential, Planned, PlannedUpTo, Plan;
  }

  lemma ReturningKept(c: Setup, s: State)
    requires QuotaInv(c, s) && Returns(s.issuer.pc)
    ensures QuotaInv(c, ReturningStep(c, s))
  {
    hide InSequential, Planned, PlannedUpTo, Plan;
  }

  lemma EndingKept(c: Setup, s: State)
    requires StopInv(c, s) && ProgressInv(c, s) && QuotaInv(c, s)
    requires s.issuer.pc.StageEnd? || s.issuer.pc.ErrorCheck? || s.issuer.pc.EndStopped? || s.issuer.pc.EndCancelled?
    ensures QuotaInv(c, EndingStep(s))
  {
    hide Planned, PlannedUpTo, Plan, BreakerSpec.Tripped;
  }

  lemma StoppingKept(c: Setup, s: State)
    requires QuotaInv(c, s) && (s.issuer.pc.CallStop? || s.issuer.pc.CallClose?)
    ensures QuotaInv(c, StoppingStep(s))
  {
    hide Plan, Fitted;
  }

  lemma FinishingKept(c: Setup, s: State, alt: bool)
    requires QuotaInv(c, s) && (s.issuer.pc.Drain? || s.issuer.pc.ReadReason? || s.issuer.pc.ReadCancel?)
    ensures QuotaInv(c, FinishingStep(s, alt))
  {
    hide Plan, Fitted;
  }

  lemma IssueKept(c: Setup, s: State, alt: bool)
    requires Sound(c) && StopInv(c, s) && ProgressInv(c, s) && QuotaInv(c, s) && IssueEnabled(c, s, alt)
    ensures QuotaInv(c, IssueStep(c, s, alt))
  {
    hide Sound, StopInv, ProgressInv, QuotaInv;
    hide PlanningStep, CheckingStep, TakingStep, LaunchStep, ReturningStep, EndingStep, StoppingStep, FinishingStep;
    match s.issuer.pc
    case TopStopped | TopCancelled | PlanStage | NextStage => PlanningKept(c, s, alt);
    case LoopTop | Sleep | StopCheck | CancelCheck | TakeSlot | AwaitSlot => CheckingKept(c, s, alt);
    case ClosedCheck | LoadUsed | Swap | MarkSent => TakingKept(c, s);
    case Launch => LaunchKept(c, s);
    case AwaitInline | Guard | FreeSlot | TruncGuard => ReturningKept(c, s);
    case StageEnd | ErrorCheck | EndStopped | EndCancelled => EndingKept(c, s);
    case CallStop(_, _) => StoppingKept(c, s);
    case CallClose(_) => StoppingKept(c, s);
    case _ => FinishingKept(c, s, alt);
  }

  /** What the attempts and the signal do leaves it alone. */
  lemma QuotaFrame(c: Setup, s: State, t: State)
    requires QuotaInv(c, s) && t.issuer == s.issuer && t.ctl.used == s.ctl.used
    requires (s.ctl.cancelled ==> t.ctl.cancelled) && (s.ctl.stopped ==> t.ctl.stopped)
    requires t.ctl.reason == Some(QuotaExhausted) ==> s.ctl.reason == Some(QuotaExhausted)
    ensures QuotaInv(c, t)
  {
    hide Plan, Planned, PlannedUpTo;
  }

  lemma JobsNeverBlameQuota(c: Setup, s: State, e: Event)
    requires Enabled(c, s, e) && (e.Land? || e.Work?)
    ensures Next(c, s, e).ctl.reason == Some(QuotaExhausted) ==> s.ctl.reason == Some(QuotaExhausted)
  {
    hide BreakerSpec.Tripped;
  }

  lemma PrimeKept(c: Setup, s: State, ok: bool)
    requires Enabled(c, s, PrimeAuth(ok)) && QuotaInv(c, s)
    ensures QuotaInv(c, Next(c, s, PrimeAuth(ok)))
  {
    hide Plan, Fitted;
  }

  lemma StepKeepsQuota(c: Setup, s: State, e: Event)
    requires Sound(c) && RunOutcome.Inv(c, s) && QuotaInv(c, s) && Enabled(c, s, e)
    ensures QuotaInv(c, Next(c, s, e))
  {
    match e
    case Issue(alt) =>
      IssueKept(c, s, alt);
      hide *;
    case Cancel =>
      QuotaFrame(c, s, Next(c, s, e));
    case PrimeAuth(ok) =>
      PrimeKept(c, s, ok);
    case _ =>
      JobFrame(c, s, e);
      JobsNeverBlameQuota(c, s, e);
      hide Next, QuotaInv;
      QuotaFrame(c, s, Next(c, s, e));
  }

  lemma {:induction false} RunKeepsQuota(c: Setup, s: State, events: seq<Event>, t: State)
    requires Sound(c) && RunOutcome.Inv(c, s) && QuotaInv(c, s) && Executes(c, s, events, t)
    ensures QuotaInv(c, t)
    decreases |events|
  {
    hide QuotaInv, RunOutcome.Inv, Next, Enabled, Sound;
    if events != [] {
      StepKeepsQuota(c, s, events[0]);
      RunOutcome.StepKeepsInv(c, s, events[0]);
      RunKeepsQuota(c, Next(c, s, events[0]), events[1..], t);
    }
  }

  // ----- main results

  /** A run ends for lack of quota only if its plan is more than the budget, and
      it ends complete only if it is not. It leaves a unit of the budget unused
      if and only if the last stage was cut down to the budget and then
      interrupted: in that case the operator, and not the budget, ended it. */
  lemma QuotaExhaustedMeans(c: Setup, s: State, events: seq<Event>, t: State)
    requires Sound(c) && c.maxConcurrency >= 1 && Initial(s) && Executes(c, s, events, t)
    requires t.issuer.pc == Done
    ensures t.outcome.reason == QuotaExhausted ==>
              && Plan(c) > Max(c.budget, 0)
              && (QuotaSpec.Available(t.ctl.used, c.budget, c.hardCap) <==> CutShort(t.issuer))
              && (CutShort(t.issuer) ==> t.ctl.cancelled)
    ensures t.outcome.reason == Completed ==> Plan(c) <= Max(c.budget, 0)
  {
    hide Executes, BreakerSpec.Tripped, QuotaInv;
    RunOutcome.InitialInv(c, s);
    StartsFitted(c, s);
    RunKeepsQuota(c, s, events, t);
    OutcomeMeans(c, s, events, t);
    RunAccounting.AccountingAlways(c, s, events, t);
    ShortAtEnd(c, t);
  }

  lemma StartsFitted(c: Setup, s: State)
    requires Initial(s)
    ensures QuotaInv(c, s)
  {
    hide Plan, Fitted;
  }

  lemma ShortAtEnd(c: Setup, t: State)
    requires Sound(c) && QuotaInv(c, t)
    ensures t.ctl.reason == Some(QuotaExhausted) ==>
              && Short(c, t)
              && (QuotaSpec.Available(t.ctl.used, c.budget, c.hardCap) <==> t.ctl.used < c.budget)
  {
    hide Plan, Fitted, Short;
  }
}
