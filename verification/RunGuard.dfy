/** The quota-guard row of the audit file: written exactly when a unit is refused,
    or when a stage that was cut down stops the run.
 */
module RunGuard {
  import opened Common
  import opened Profile
  import opened RunEngine
  import RunAccounting
  import BreakerSpec
  import QuotaSpec

  /** This step asks for a unit and is refused it: the quota is closed, used up or
      at its cap. */
  predicate Refuses(c: Setup, s: State, e: Event) {
    e.Issue? &&
      (match s.issuer.pc
       case ClosedCheck => s.ctl.closed
       case LoadUsed => s.ctl.used >= c.budget || (c.hardCap > 0 && s.ctl.used >= c.hardCap)
       case _ => false)
  }

  /** This step finds a stage ended that was cut down, in a run not yet stopped. */
  predicate CutsShort(s: State, e: Event) {
    e.Issue? && s.issuer.pc.StageEnd? && s.issuer.truncated && !s.ctl.stopped
  }

  /** How often the run's quota gave out. */
  ghost function Shortages(c: Setup, s: State, events: seq<Event>): nat
    decreases |events|
  {
    if events == [] || !Enabled(c, s, events[0]) then 0
    else
      (if Refuses(c, s, events[0]) || CutsShort(s, events[0]) then 1 else 0)
      + Shortages(c, Next(c, s, events[0]), events[1..])
  }

  /** The row is due: the issuer is on its way to write it. */
  predicate Due(pc: Pc) {
    match pc
    case Guard | TruncGuard => true
    case CallStop(_, resume) => !resume.Draining?
    case CallClose(resume) => !resume.Draining?
    case _ => false
  }

  function Rows(s: State): int {
    s.counts.guards + if Due(s.issuer.pc) then 1 else 0
  }

  lemma IssuerCounts(c: Setup, s: State, alt: bool)
    requires IssueEnabled(c, s, alt)
    ensures Rows(IssueStep(c, s, alt)) ==
            Rows(s) + if Refuses(c, s, Issue(alt)) || CutsShort(s, Issue(alt)) then 1 else 0
  {
    hide PlanningStep, CheckingStep, TakingStep, LaunchStep, ReturningStep, EndingStep, StoppingStep, FinishingStep, Rows;
    match s.issuer.pc
    case TopStopped | TopCancelled | PlanStage | NextStage => PlanningCounts(c, s, alt);
    case LoopTop | Sleep | StopCheck | CancelCheck | TakeSlot | AwaitSlot => CheckingCounts(c, s, alt);
    case ClosedCheck | LoadUsed | Swap | MarkSent => TakingCounts(c, s, alt);
    case Launch => LaunchCounts(c, s);
    case AwaitInline | Guard | FreeSlot | TruncGuard => ReturningCounts(c, s);
    case StageEnd | ErrorCheck | EndStopped | EndCancelled => EndingCounts(s, alt);
    case CallStop(_, _) => StoppingCounts(s);
    case CallClose(_) => StoppingCounts(s);
    case _ => FinishingCounts(s, alt);
  }

  lemma PlanningCounts(c: Setup, s: State, alt: bool)
    requires s.issuer.pc.TopStopped? || s.issuer.pc.TopCancelled? || s.issuer.pc.PlanStage? || s.issuer.pc.NextStage?
    ensures Rows(PlanningStep(c, s, alt)) == Rows(s)
  {
    hide Planned;
  }

  lemma CheckingCounts(c: Setup, s: State, alt: bool)
    requires s.issuer.pc.LoopTop? || s.issuer.pc.Sleep? || s.issuer.pc.StopCheck? || s.issuer.pc.CancelCheck?
             || s.issuer.pc.TakeSlot? || s.issuer.pc.AwaitSlot?
    ensures Rows(CheckingStep(c, s, alt)) == Rows(s)
  {
    hide InSequential;
  }

  lemma TakingCounts(c: Setup, s: State, alt: bool)
    requires s.issuer.pc.ClosedCheck? || s.issuer.pc.LoadUsed? || s.issuer.pc.Swap? || s.issuer.pc.MarkSent?
    ensures Rows(TakingStep(c, s)) == Rows(s) + if Refuses(c, s, Issue(alt)) then 1 else 0
  {
  }

  lemma LaunchCounts(c: Setup, s: State)
    requires s.issuer.pc.Launch?
    ensures Rows(LaunchStep(c, s)) == Rows(s)
  {
    hide InSequential;
  }

  lemma ReturningCounts(c: Setup, s: State)
    requires s.issuer.pc.AwaitInline? || s.issuer.pc.Guard? || s.issuer.pc.FreeSlot? || s.issuer.pc.TruncGuard?
    ensures Rows(ReturningStep(c, s)) == Rows(s)
  {
    hide InSequential;
  }

  lemma EndingCounts(s: State, alt: bool)
    requires s.issuer.pc.StageEnd? || s.issuer.pc.ErrorCheck? || s.issuer.pc.EndStopped? || s.issuer.pc.EndCancelled?
    ensures Rows(EndingStep(s)) == Rows(s) + if CutsShort(s, Issue(alt)) then 1 else 0
  {
  }

  lemma StoppingCounts(s: State)
    requires s.issuer.pc.CallStop? || s.issuer.pc.CallClose?
    ensures Rows(StoppingStep(s)) == Rows(s)
  {
  }

  lemma FinishingCounts(s: State, alt: bool)
    requires s.issuer.pc.Drain? || s.issuer.pc.ReadReason? || s.issuer.pc.ReadCancel?
    ensures Rows(FinishingStep(s, alt)) == Rows(s)
  {
  }

  lemma StepCounts(c: Setup, s: State, e: Event)
    requires Enabled(c, s, e)
    ensures Rows(Next(c, s, e)) == Rows(s) + if Refuses(c, s, e) || CutsShort(s, e) then 1 else 0
  {
    hide IssueStep;
    match e
    case Issue(alt) =>
      hide Rows;
      IssuerCounts(c, s, alt);
    case Land(_, _, _) =>
    case Work(_, _) => WorkCounts(c, s, e);
    case Cancel =>
    case PrimeAuth(_) =>
  }

  lemma WorkCounts(c: Setup, s: State, e: Event)
    requires Enabled(c, s, e) && e.Work?
    ensures Rows(Next(c, s, e)) == Rows(s)
  {
    hide BreakerSpec.Tripped;
  }

  lemma {:induction false} RunCounts(c: Setup, s: State, events: seq<Event>, t: State)
    requires Executes(c, s, events, t)
    ensures Rows(t) == Rows(s) + Shortages(c, s, events)
    decreases |events|
  {
    hide Rows, Refuses, CutsShort, Next, Enabled;
    if events != [] {
      StepCounts(c, s, events[0]);
      RunCounts(c, Next(c, s, events[0]), events[1..], t);
    }
  }

  /** When a run is over, the audit file has one quota-guard row if a unit was
      refused or a stage cut down stopped the run, and none otherwise; neither
      happens twice. */
  lemma GuardRowExactly(c: Setup, s: State, events: seq<Event>, t: State)
    requires c.maxConcurrency >= 1 && Initial(s) && Executes(c, s, events, t)
    requires t.issuer.pc == Done
    ensures t.counts.guards == Shortages(c, s, events) <= 1
  {
    RunCounts(c, s, events, t);
    RunAccounting.AccountingAlways(c, s, events, t);
    hide Executes, Shortages;
  }
}
