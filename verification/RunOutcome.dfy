/** What the outcome of a run means: who stopped it, how much was issued after
    that, and what "completed" promises, over every interleaving.
 */
module RunOutcome {
  import opened Common
  import opened Profile
  import opened RunEngine
  import BreakerSpec
  import QuotaSpec

  /** What the stages before this one plan, a negative plan counting as none. */
  function PlannedUpTo(stages: seq<Stage>, n: nat): int
    requires n <= |stages|
  {
    if n == 0 then 0 else PlannedUpTo(stages, n - 1) + Max(Planned(stages[n - 1]), 0)
  }

  /** Later stages never plan a negative amount. */
  lemma {:induction false} PlannedUpToGrows(stages: seq<Stage>, m: nat, n: nat)
    requires m <= n <= |stages|
    ensures 0 <= PlannedUpTo(stages, m) <= PlannedUpTo(stages, n)
  {
    if n == 0 {
    } else if m < n {
      PlannedUpToGrows(stages, m, n - 1);
    } else {
      PlannedUpToGrows(stages, m - 1, n - 1);
    }
  }

  // ----- the invariants

  /** Being stopped, having a reason and a breaker having tripped go together. */
  ghost predicate StopInv(c: Setup, s: State) {
    && (s.ctl.stopped <==> s.ctl.reason.Some?)
    && (s.ctl.closed ==> s.ctl.stopped)
    && (s.ctl.reason.Some? ==> StopReason(s.ctl.reason.value))
    && (s.ctl.reason == Some(AutoAbort) ==> BreakerSpec.Tripped(c.breaker, s.history))
    && (s.issuer.pc.CallStop? ==> StopReason(s.issuer.pc.reason) && s.issuer.pc.reason != AutoAbort)
    && (MustBeStopped(s.issuer.pc) ==> s.ctl.stopped)
  }

  predicate StopReason(r: Reason) {
    r.AutoAbort? || r.QuotaExhausted? || r.Error?
  }

  predicate MustBeStopped(pc: Pc) {
    match pc
    case Guard | FreeSlot | TruncGuard => true
    case CallClose(_) => true
    case _ => false
  }

  /** The breaker trips in some attempt's hands, and that attempt sees the run
      stopped before perform returns. */
  ghost predicate TripInv(c: Setup, s: State) {
    && (forall j :: 0 <= j < |s.jobs| && s.jobs[j].tripped ==>
          s.jobs[j].pc >= STOP && BreakerSpec.Tripped(c.breaker, s.history))
    && (forall j :: 0 <= j < |s.jobs| && s.jobs[j].pc == STOP ==> s.jobs[j].tripped)
    && (forall j :: 0 <= j < |s.jobs| && (s.jobs[j].pc == CLOSE || (s.jobs[j].tripped && s.jobs[j].pc > STOP)) ==> s.ctl.stopped)
    && (BreakerSpec.Tripped(c.breaker, s.history) ==> exists j :: 0 <= j < |s.jobs| && s.jobs[j].tripped)
  }

  /** The issuer is past the checks that would have seen the run stopped or
      cancelled, and may take one more unit. */
  predicate MayTake(c: Setup, s: State) {
    match s.issuer.pc
    case TakeSlot | AwaitSlot | ClosedCheck | LoadUsed | Swap => true
    case CancelCheck => !s.ctl.cancelled
    case StopCheck => InSequential(c, s.issuer.stage) && !s.ctl.stopped
    case _ => false
  }

  ghost predicate LateInv(c: Setup, s: State) {
    if s.ctl.stopped || s.ctl.cancelled then s.ctl.late + (if MayTake(c, s) then 1 else 0) <= 1
    else s.ctl.late == 0
  }

  /** How far the plan has been carried out, at each point of the issuer. */
  ghost predicate ProgressInv(c: Setup, s: State) {
    var i := s.issuer;
    match i.pc
    case Prime => i.stage == 0 && s.ctl.used == 0
    case TopStopped => i.stage <= |c.stages| && s.ctl.used == PlannedUpTo(c.stages, i.stage)
    case TopCancelled | PlanStage => i.stage < |c.stages| && s.ctl.used == PlannedUpTo(c.stages, i.stage)
    case LoopTop => Looping(c, s) && i.k <= i.planned && s.ctl.used == PlannedUpTo(c.stages, i.stage) + i.k
    case Sleep | StopCheck | CancelCheck | TakeSlot | AwaitSlot | ClosedCheck | LoadUsed | Swap =>
      Looping(c, s) && i.k < i.planned && s.ctl.used == PlannedUpTo(c.stages, i.stage) + i.k
      && (i.pc.Swap? ==> i.cur == s.ctl.used)
    case MarkSent | Launch | AwaitInline =>
      Looping(c, s) && i.k < i.planned && s.ctl.used == PlannedUpTo(c.stages, i.stage) + i.k + 1
      && (i.pc.AwaitInline? ==> s.jobs != [])
    case Guard | FreeSlot => i.stage < |c.stages|
    case StageEnd | TruncGuard => StageResult(c, s)
    case ErrorCheck => StageResult(c, s) && (i.truncated ==> s.ctl.stopped)
    case EndStopped => StageResult(c, s) && (i.truncated ==> s.ctl.stopped) && (i.err.BadRate? ==> s.ctl.cancelled)
    case EndCancelled => StageResult(c, s) && !i.truncated && !i.err.Stopped? && (i.err.BadRate? ==> s.ctl.cancelled)
    case NextStage => i.stage < |c.stages| && s.ctl.used == PlannedUpTo(c.stages, i.stage + 1)
    case CallStop(_, resume) => StoppingIn(c, s, resume)
    case CallClose(resume) => StoppingIn(c, s, resume)
    case Drain | ReadReason => s.ctl.stopped || s.ctl.cancelled || Whole(c, s)
    case ReadCancel =>
      if s.outcome.reason.Completed? then s.ctl.cancelled || Whole(c, s)
      else s.ctl.reason == Some(s.outcome.reason)
    case Done =>
      && (s.outcome.partial <==> !s.outcome.reason.Completed? || !i.drained)
      && (match s.outcome.reason
          case Completed => Whole(c, s)
          case Signal => s.ctl.cancelled
          case Error => s.ctl.reason == Some(Error) || s.ctl.used == 0
          case _ => s.ctl.reason == Some(s.outcome.reason))
  }

  ghost predicate Whole(c: Setup, s: State) {
    s.ctl.used == PlannedUpTo(c.stages, |c.stages|)
  }

  ghost predicate Looping(c: Setup, s: State) {
    && s.issuer.stage < |c.stages| && 0 <= s.issuer.k
    && (RateOnly(s.issuer.pc) ==> !InSequential(c, s.issuer.stage))
    && (s.issuer.truncated || s.issuer.planned == Planned(c.stages[s.issuer.stage]))
  }

  ghost predicate StageResult(c: Setup, s: State) {
    && s.issuer.stage < |c.stages|
    && (s.issuer.err.NoError? && !s.issuer.truncated ==> s.ctl.used == PlannedUpTo(c.stages, s.issuer.stage + 1))
    && (s.issuer.err.Stopped? ==> s.ctl.stopped)
    && (s.issuer.err.Interrupted? ==> s.ctl.cancelled)
  }

  ghost predicate StoppingIn(c: Setup, s: State, resume: Resume) {
    match resume
    case Guarding => s.issuer.stage < |c.stages|
    case TruncGuarding => StageResult(c, s)
    case Draining => true
  }

  ghost predicate Inv(c: Setup, s: State) {
    StopInv(c, s) && TripInv(c, s) && LateInv(c, s) && ProgressInv(c, s)
  }

  // ----- attempts keep them

  lemma StopKeptByJob(c: Setup, s: State, e: Event)
    requires StopInv(c, s) && TripInv(c, s) && Enabled(c, s, e) && (e.Land? || e.Work?)
    ensures StopInv(c, Next(c, s, e))
  {
    hide BreakerSpec.Tripped, MustBeStopped;
    if e.Work? && s.jobs[e.job].pc == BREAK && BreakerSpec.Tripped(c.breaker, s.history) {
      BreakerSpec.TrippedLatches(c.breaker, s.history, [!s.jobs[e.job].ok]);
    }
  }

  lemma TripKeptByJob(c: Setup, s: State, e: Event)
    requires TripInv(c, s) && StopInv(c, s) && Enabled(c, s, e) && (e.Land? || e.Work?)
    ensures TripInv(c, Next(c, s, e))
  {
    hide TripInv, StopInv, Next;
    if e.Work? && s.jobs[e.job].pc == BREAK && !s.jobs[e.job].own {
      TripKeptAtBreak(c, s, e);
    } else {
      TripKeptElsewhere(c, s, e);
    }
  }

  lemma TripKeptAtBreak(c: Setup, s: State, e: Event)
    requires TripInv(c, s) && StopInv(c, s) && Enabled(c, s, e)
    requires e.Work? && s.jobs[e.job].pc == BREAK && !s.jobs[e.job].own
    ensures TripInv(c, Next(c, s, e))
  {
    hide BreakerSpec.Tripped, MustBeStopped;
    var t := Next(c, s, e);
    assert t.history == s.history + [!s.jobs[e.job].ok];
    assert forall j :: 0 <= j < |s.jobs| && j != e.job ==> t.jobs[j] == s.jobs[j];
    if BreakerSpec.Tripped(c.breaker, s.history) {
      BreakerSpec.TrippedLatches(c.breaker, s.history, [!s.jobs[e.job].ok]);
    }
    if BreakerSpec.Tripped(c.breaker, t.history) {
      assert t.jobs[e.job].tripped;
    }
  }

  lemma TripKeptElsewhere(c: Setup, s: State, e: Event)
    requires TripInv(c, s) && Enabled(c, s, e) && (e.Land? || e.Work?)
    requires e.Work? && s.jobs[e.job].pc == BREAK ==> s.jobs[e.job].own
    ensures TripInv(c, Next(c, s, e))
  {
    hide BreakerSpec.Tripped;
    var t := Next(c, s, e);
    assert t.history == s.history;
    assert forall j :: 0 <= j < |s.jobs| && j != e.job ==> t.jobs[j] == s.jobs[j];
    if BreakerSpec.Tripped(c.breaker, s.history) {
      var k :| 0 <= k < |s.jobs| && s.jobs[k].tripped;
      assert t.jobs[k].tripped;
    }
  }

  lemma RestKeptByJob(c: Setup, s: State, e: Event)
    requires StopInv(c, s) && LateInv(c, s) && ProgressInv(c, s) && Enabled(c, s, e) && (e.Land? || e.Work?)
    ensures LateInv(c, Next(c, s, e)) && ProgressInv(c, Next(c, s, e))
  {
    JobFrame(c, s, e);
    hide Next, Enabled, StopReason, MustBeStopped, BreakerSpec.Tripped, LateInv, ProgressInv;
    LateFrame(c, s, Next(c, s, e));
    ProgressFrame(c, s, Next(c, s, e));
  }

  /** The state moved on without the issuer. */
  ghost predicate IssuerWaits(s: State, t: State) {
    && t.issuer == s.issuer && t.outcome == s.outcome && |t.jobs| == |s.jobs|
    && t.ctl.used == s.ctl.used && t.ctl.late == s.ctl.late && t.ctl.cancelled == s.ctl.cancelled
    && (s.ctl.stopped ==> t.ctl.stopped && t.ctl.reason == s.ctl.reason)
    && (t.ctl.stopped == s.ctl.stopped ==> t.ctl.reason == s.ctl.reason)
  }

  lemma LateFrame(c: Setup, s: State, t: State)
    requires LateInv(c, s) && IssuerWaits(s, t)
    ensures LateInv(c, t)
  {
    hide InSequential;
  }

  lemma ProgressFrame(c: Setup, s: State, t: State)
    requires ProgressInv(c, s) && IssuerWaits(s, t) && (s.ctl.reason.Some? ==> s.ctl.stopped)
    ensures ProgressInv(c, t)
  {
    hide InSequential, Planned, PlannedUpTo, RateOnly;
  }

  /** Attempts move the issuer nowhere and use no quota; they can stop the run,
      but not change the reason of one already stopped. */
  lemma JobFrame(c: Setup, s: State, e: Event)
    requires Enabled(c, s, e) && (e.Land? || e.Work?)
    ensures IssuerWaits(s, Next(c, s, e))
  {
    hide BreakerSpec.Tripped, InSequential, Planned;
  }

  // ----- the issuer keeps them

  lemma PlanningKept(c: Setup, s: State, alt: bool)
    requires Inv(c, s) && IssueEnabled(c, s, alt)
    requires s.issuer.pc.TopStopped? || s.issuer.pc.TopCancelled? || s.issuer.pc.PlanStage? || s.issuer.pc.NextStage?
    ensures Inv(c, PlanningStep(c, s, alt))
  {
    hide BreakerSpec.Tripped, Planned, InSequential, TripInv;
    TripFrame(c, s, PlanningStep(c, s, alt));
  }

  lemma CheckingKept(c: Setup, s: State, alt: bool)
    requires Inv(c, s) && IssueEnabled(c, s, alt)
    requires s.issuer.pc.LoopTop? || s.issuer.pc.Sleep? || s.issuer.pc.StopCheck? || s.issuer.pc.CancelCheck?
             || s.issuer.pc.TakeSlot? || s.issuer.pc.AwaitSlot?
    ensures Inv(c, CheckingStep(c, s, alt))
  {
    hide BreakerSpec.Tripped, Planned, InSequential, TripInv;
    TripFrame(c, s, CheckingStep(c, s, alt));
  }

  lemma TakingKept(c: Setup, s: State)
    requires Inv(c, s)
    requires s.issuer.pc.ClosedCheck? || s.issuer.pc.LoadUsed? || s.issuer.pc.Swap? || s.issuer.pc.MarkSent?
    ensures Inv(c, TakingStep(c, s))
  {
    hide BreakerSpec.Tripped, Planned, InSequential, QuotaSpec.Available, TripInv;
    TripFrame(c, s, TakingStep(c, s));
  }

  lemma LaunchKept(c: Setup, s: State)
    requires Inv(c, s) && s.issuer.pc.Launch?
    ensures Inv(c, LaunchStep(c, s))
  {
    hide BreakerSpec.Tripped, Planned, InSequential;
    var t := LaunchStep(c, s);
    assert forall j :: 0 <= j < |s.jobs| ==> t.jobs[j] == s.jobs[j];
  }

  lemma ReturningKept(c: Setup, s: State)
    requires Inv(c, s) && IssueEnabled(c, s, false)
    requires s.issuer.pc.AwaitInline? || s.issuer.pc.Guard? || s.issuer.pc.FreeSlot? || s.issuer.pc.TruncGuard?
    ensures Inv(c, ReturningStep(c, s))
  {
    hide BreakerSpec.Tripped, Planned, InSequential, StopInv, LateInv, ProgressInv, TripInv, ReturningStep, IssueEnabled;
    ReturningUntouched(c, s);
    TripFrame(c, s, ReturningStep(c, s));
    if s.issuer.pc.AwaitInline? {
      InlineTripStops(c, s);
    }
    ReturningStops(c, s);
    ReturningProgress(c, s);
  }

  predicate Returns(pc: Pc) {
    match pc
    case AwaitInline | Guard | FreeSlot | TruncGuard => true
    case _ => false
  }

  lemma ReturningUntouched(c: Setup, s: State)
    ensures var t := ReturningStep(c, s); t.jobs == s.jobs && t.history == s.history && (s.ctl.stopped ==> t.ctl.stopped)
  {
    hide InSequential;
  }

  lemma InlineTripStops(c: Setup, s: State)
    requires TripInv(c, s) && IssueEnabled(c, s, false) && s.issuer.pc.AwaitInline?
    ensures s.jobs != [] && (s.jobs[|s.jobs| - 1].tripped ==> s.ctl.stopped)
  {
    hide BreakerSpec.Tripped;
  }

  lemma ReturningStops(c: Setup, s: State)
    requires StopInv(c, s) && LateInv(c, s) && Returns(s.issuer.pc)
    ensures StopInv(c, ReturningStep(c, s)) && LateInv(c, ReturningStep(c, s))
  {
    hide BreakerSpec.Tripped, InSequential;
  }

  lemma ReturningProgress(c: Setup, s: State)
    requires StopInv(c, s) && ProgressInv(c, s) && Returns(s.issuer.pc)
    requires s.issuer.pc.AwaitInline? ==> s.jobs != [] && (s.jobs[|s.jobs| - 1].tripped ==> s.ctl.stopped)
    ensures ProgressInv(c, ReturningStep(c, s))
  {
    hide BreakerSpec.Tripped, Planned, InSequential, PlannedUpTo, StopReason;
  }

  lemma EndingKept(c: Setup, s: State)
    requires Inv(c, s)
    requires s.issuer.pc.StageEnd? || s.issuer.pc.ErrorCheck? || s.issuer.pc.EndStopped? || s.issuer.pc.EndCancelled?
    ensures Inv(c, EndingStep(s))
  {
    hide BreakerSpec.Tripped, Planned, InSequential, TripInv;
    TripFrame(c, s, EndingStep(s));
  }

  lemma StoppingKept(c: Setup, s: State)
    requires Inv(c, s) && (s.issuer.pc.CallStop? || s.issuer.pc.CallClose?)
    ensures Inv(c, StoppingStep(s))
  {
    hide BreakerSpec.Tripped, Planned, InSequential, TripInv;
    TripFrame(c, s, StoppingStep(s));
  }

  lemma FinishingKept(c: Setup, s: State, alt: bool)
    requires Inv(c, s) && IssueEnabled(c, s, alt)
    requires s.issuer.pc.Drain? || s.issuer.pc.ReadReason? || s.issuer.pc.ReadCancel?
    ensures Inv(c, FinishingStep(s, alt))
  {
    hide BreakerSpec.Tripped, Planned, InSequential, TripInv;
    TripFrame(c, s, FinishingStep(s, alt));
  }

  lemma TripFrame(c: Setup, s: State, t: State)
    requires TripInv(c, s)
    ensures t.jobs == s.jobs && t.history == s.history && (s.ctl.stopped ==> t.ctl.stopped) ==> TripInv(c, t)
  {
    hide BreakerSpec.Tripped;
  }

  lemma IssueKept(c: Setup, s: State, alt: bool)
    requires Inv(c, s) && IssueEnabled(c, s, alt)
    ensures Inv(c, IssueStep(c, s, alt))
  {
    hide Inv, PlanningStep, CheckingStep, TakingStep, LaunchStep, ReturningStep, EndingStep, StoppingStep, FinishingStep;
    match s.issuer.pc
    case TopStopped | TopCancelled | PlanStage | NextStage => PlanningKept(c, s, alt);
    case LoopTop | Sleep | StopCheck | CancelCheck | TakeSlot | AwaitSlot => CheckingKept(c, s, alt);
    case ClosedCheck | LoadUsed | Swap | MarkSent => TakingKept(c, s);
    case Launch => LaunchKept(c, s);
    case AwaitInline | Guard | FreeSlot | TruncGuard => ReturningKept(c, s);
    case StageEnd | ErrorCheck | EndStopped | EndCancelled => EndingKept(c, s);
    case CallStop(_, _) => StoppingKept(c, s);
    case CallClose(_) => StoppingKept(c, s);
    case _ => FinishingKept(c, s, alt);
  }

  lemma OtherKept(c: Setup, s: State, e: Event)
    requires Inv(c, s) && Enabled(c, s, e) && (e.Cancel? || e.PrimeAuth?)
    ensures Inv(c, Next(c, s, e))
  {
    hide BreakerSpec.Tripped, Planned, TripInv, InSequential;
    TripFrame(c, s, Next(c, s, e));
  }

  lemma StepKeepsInv(c: Setup, s: State, e: Event)
    requires Inv(c, s) && Enabled(c, s, e)
    ensures Inv(c, Next(c, s, e))
  {
    hide StopInv, TripInv, LateInv, ProgressInv, IssueStep, WorkStep;
    match e
    case Issue(alt) =>
      IssueKept(c, s, alt);
    case Cancel =>
      OtherKept(c, s, e);
    case PrimeAuth(_) =>
      OtherKept(c, s, e);
    case _ =>
      StopKeptByJob(c, s, e);
      TripKeptByJob(c, s, e);
      RestKeptByJob(c, s, e);
  }

  lemma InitialInv(c: Setup, s: State)
    requires Initial(s)
    ensures Inv(c, s)
  {
  }

  lemma {:induction false} RunKeepsInv(c: Setup, s: State, events: seq<Event>, t: State)
    requires Inv(c, s) && Executes(c, s, events, t)
    ensures Inv(c, t)
    decreases |events|
  {
    if events != [] {
      StepKeepsInv(c, s, events[0]);
      RunKeepsInv(c, Next(c, s, events[0]), events[1..], t);
    }
  }

  // ----- main results

  /** What each reported reason means, in every interleaving. A completed run
      issued every request of every stage, no more and no fewer; a run is
      reported complete and not partial only when it was also drained. */
  lemma OutcomeMeans(c: Setup, s: State, events: seq<Event>, t: State)
    requires Initial(s) && Executes(c, s, events, t)
    requires t.issuer.pc == Done
    ensures t.outcome.reason == Completed ==> t.ctl.used == PlannedUpTo(c.stages, |c.stages|)
    ensures t.outcome.reason == Signal ==> t.ctl.cancelled
    ensures t.outcome.reason == AutoAbort ==> BreakerSpec.Tripped(c.breaker, t.history)
    ensures t.outcome.reason == QuotaExhausted ==> t.ctl.reason == Some(QuotaExhausted)
    ensures t.outcome.reason == Error ==> t.ctl.reason == Some(Error) || t.ctl.used == 0
    ensures !t.outcome.partial <==> t.outcome.reason == Completed && t.issuer.drained
  {
    hide BreakerSpec.Tripped;
    InitialInv(c, s);
    RunKeepsInv(c, s, events, t);
  }

  /** After the run is stopped or cancelled, whichever comes first, the single
      issuer takes at most one further unit. */
  lemma AtMostOneLate(c: Setup, s: State, events: seq<Event>, t: State)
    requires Initial(s) && Executes(c, s, events, t)
    ensures t.ctl.late <= 1
  {
    InitialInv(c, s);
    RunKeepsInv(c, s, events, t);
  }

  /** An abort is reported only for a breaker that tripped on the attempts
      filed, and is never missed: once the breaker has tripped and the tripping
      attempt has returned, the run is stopped. */
  lemma AbortIsTheBreakers(c: Setup, s: State, events: seq<Event>, t: State)
    requires Initial(s) && Executes(c, s, events, t)
    ensures t.ctl.reason == Some(AutoAbort) ==> BreakerSpec.Tripped(c.breaker, t.history)
    ensures BreakerSpec.Tripped(c.breaker, t.history) && (forall j :: 0 <= j < |t.jobs| ==> t.jobs[j].pc >= RETURN)
            ==> t.ctl.stopped
  {
    InitialInv(c, s);
    RunKeepsInv(c, s, events, t);
  }

  /** Whoever stops the run first gives the reason that is reported: once set,
      it is never replaced, and a run that has not yet read it reports it. */
  ghost predicate Reports(s: State, reason: Reason) {
    && s.ctl.stopped && s.ctl.reason == Some(reason)
    && (s.issuer.pc.ReadCancel? || s.issuer.pc.Done? ==> s.outcome.reason == reason)
    && (s.issuer.pc.Done? ==> s.outcome.partial)
    && s.issuer.pc != Prime && StopReason(reason)
  }

  lemma IssueKeepsReason(c: Setup, s: State, alt: bool, reason: Reason)
    requires Reports(s, reason) && IssueEnabled(c, s, alt)
    ensures Reports(IssueStep(c, s, alt), reason)
  {
    hide Reports, PlanningStep, CheckingStep, TakingStep, LaunchStep, ReturningStep, EndingStep, StoppingStep, FinishingStep;
    match s.issuer.pc
    case TopStopped | TopCancelled | PlanStage | NextStage => PlanningKeepsReason(c, s, alt, reason);
    case LoopTop | Sleep | StopCheck | CancelCheck | TakeSlot | AwaitSlot => CheckingKeepsReason(c, s, alt, reason);
    case ClosedCheck | LoadUsed | Swap | MarkSent => TakingKeepsReason(c, s, reason);
    case Launch => TakingKeepsReason(c, s, reason);
    case AwaitInline | Guard | FreeSlot | TruncGuard => EndingKeepsReason(c, s, reason);
    case StageEnd | ErrorCheck | EndStopped | EndCancelled => EndingKeepsReason(c, s, reason);
    case CallStop(_, _) => FinishingKeepsReason(s, alt, reason);
    case CallClose(_) => FinishingKeepsReason(s, alt, reason);
    case _ => FinishingKeepsReason(s, alt, reason);
  }

  lemma PlanningKeepsReason(c: Setup, s: State, alt: bool, reason: Reason)
    requires Reports(s, reason) && !s.issuer.pc.ReadCancel? && !s.issuer.pc.Done?
    ensures Reports(PlanningStep(c, s, alt), reason)
  {
    hide Planned, InSequential;
  }

  lemma CheckingKeepsReason(c: Setup, s: State, alt: bool, reason: Reason)
    requires Reports(s, reason) && !s.issuer.pc.ReadCancel? && !s.issuer.pc.Done?
    ensures Reports(CheckingStep(c, s, alt), reason)
  {
    hide Planned, InSequential;
  }

  lemma TakingKeepsReason(c: Setup, s: State, reason: Reason)
    requires Reports(s, reason) && !s.issuer.pc.ReadCancel? && !s.issuer.pc.Done?
    ensures Reports(TakingStep(c, s), reason) && Reports(LaunchStep(c, s), reason)
  {
    hide QuotaSpec.Available, InSequential;
  }

  lemma EndingKeepsReason(c: Setup, s: State, reason: Reason)
    requires Reports(s, reason) && !s.issuer.pc.ReadCancel? && !s.issuer.pc.Done?
    ensures Reports(ReturningStep(c, s), reason) && Reports(EndingStep(s), reason)
  {
    hide InSequential;
  }

  lemma FinishingKeepsReason(s: State, alt: bool, reason: Reason)
    requires Reports(s, reason)
    ensures s.issuer.pc.CallStop? || s.issuer.pc.CallClose? ==> Reports(StoppingStep(s), reason)
    ensures s.issuer.pc.Drain? || s.issuer.pc.ReadReason? || s.issuer.pc.ReadCancel? ==>
              Reports(FinishingStep(s, alt), reason)
  {
  }

  lemma StepKeepsReason(c: Setup, s: State, e: Event, reason: Reason)
    requires Reports(s, reason) && Enabled(c, s, e)
    ensures Reports(Next(c, s, e), reason)
  {
    hide BreakerSpec.Tripped, IssueStep, IssueEnabled;
    if e.Issue? {
      IssueKeepsReason(c, s, e.alt, reason);
    }
  }

  lemma {:induction false} FirstStopIsReported(c: Setup, s: State, events: seq<Event>, t: State, reason: Reason)
    requires Reports(s, reason) && Executes(c, s, events, t)
    ensures t.ctl.reason == Some(reason)
    ensures t.issuer.pc == Done ==> t.outcome.reason == reason && t.outcome.partial
    decreases |events|
  {
    if events != [] {
      StepKeepsReason(c, s, events[0], reason);
      FirstStopIsReported(c, Next(c, s, events[0]), events[1..], t, reason);
    }
  }

  /** Nothing can be stopped before the first challenge is drawn. */
  ghost predicate Untouched(s: State) {
    s.issuer.pc.Prime? ==> s.jobs == [] && !s.ctl.stopped
  }

  lemma StepKeepsUntouched(c: Setup, s: State, e: Event)
    requires Untouched(s) && Enabled(c, s, e)
    ensures Untouched(Next(c, s, e))
  {
    hide IssueStep, BreakerSpec.Tripped;
    if e.Issue? {
      NeverPrimesAgain(c, s, e.alt);
    }
  }

  lemma NeverPrimesAgain(c: Setup, s: State, alt: bool)
    requires IssueEnabled(c, s, alt)
    ensures !IssueStep(c, s, alt).issuer.pc.Prime?
  {
    hide PlanningStep, CheckingStep, TakingStep, LaunchStep, ReturningStep, EndingStep, StoppingStep, FinishingStep;
    MovesPastPriming(c, s, alt);
    EndsPastPriming(c, s, alt);
  }

  lemma MovesPastPriming(c: Setup, s: State, alt: bool)
    ensures !s.issuer.pc.Prime? ==> !PlanningStep(c, s, alt).issuer.pc.Prime? && !CheckingStep(c, s, alt).issuer.pc.Prime?
    ensures !s.issuer.pc.Prime? ==> !TakingStep(c, s).issuer.pc.Prime? && !LaunchStep(c, s).issuer.pc.Prime?
  {
    hide Planned, QuotaSpec.Available, InSequential;
  }

  lemma EndsPastPriming(c: Setup, s: State, alt: bool)
    ensures !s.issuer.pc.Prime? ==> !ReturningStep(c, s).issuer.pc.Prime? && !EndingStep(s).issuer.pc.Prime?
    ensures !s.issuer.pc.Prime? ==> !StoppingStep(s).issuer.pc.Prime? && !FinishingStep(s, alt).issuer.pc.Prime?
  {
    hide InSequential;
  }

  lemma {:induction false} RunKeepsUntouched(c: Setup, s: State, events: seq<Event>, t: State)
    requires Untouched(s) && Executes(c, s, events, t)
    ensures Untouched(t)
    decreases |events|
  {
    hide Untouched, Next, Enabled;
    if events != [] {
      StepKeepsUntouched(c, s, events[0]);
      RunKeepsUntouched(c, Next(c, s, events[0]), events[1..], t);
    }
  }

  /** From the start of any run: the reason in force at any moment before the
      outcome is read is the reason reported in the end. */
  lemma FirstStopOfARun(c: Setup, s: State, events: seq<Event>, m: State, more: seq<Event>, t: State)
    requires Initial(s) && Executes(c, s, events, m) && Executes(c, m, more, t)
    requires m.ctl.stopped && !m.issuer.pc.ReadCancel? && !m.issuer.pc.Done?
    ensures m.ctl.reason.Some? && t.ctl.reason == m.ctl.reason
    ensures t.issuer.pc == Done ==> t.outcome.reason == m.ctl.reason.value && t.outcome.partial
  {
    hide Executes, BreakerSpec.Tripped, TripInv, LateInv, ProgressInv;
    InitialInv(c, s);
    RunKeepsInv(c, s, events, m);
    RunKeepsUntouched(c, s, events, m);
    FirstStopIsReported(c, m, more, t, m.ctl.reason.value);
  }
}
