/** How runs end: without a first challenge, after a signal, and how far the
    issuer can still get once it should stop.
 */
module RunEnding {
  import opened Common
  import opened Profile
  import opened RunEngine
  import RunBreaker
  import RunOutcome
  import BreakerSpec
  import QuotaSpec

  // ----- the first challenge cannot be drawn

  /** Nothing has been issued, taken or sent. */
  predicate Untouched(s: State) {
    s.jobs == [] && s.ctl.used == 0 && s.counts.sent == 0 && !s.issuer.drained
  }

  /** The run is over before it began. */
  predicate Unprimed(s: State) {
    Untouched(s) && s.issuer.pc == Done && s.outcome == Outcome(Error, true, 0)
  }

  lemma {:induction false} StaysUnprimed(c: Setup, s: State, events: seq<Event>, t: State)
    requires Unprimed(s) && Executes(c, s, events, t)
    ensures Unprimed(t)
    decreases |events|
  {
    if events != [] {
      OnlyCancelled(c, s, events[0]);
      hide Next, Enabled;
      StaysUnprimed(c, Next(c, s, events[0]), events[1..], t);
    }
  }

  lemma OnlyCancelled(c: Setup, s: State, e: Event)
    requires Unprimed(s) && Enabled(c, s, e)
    ensures Unprimed(Next(c, s, e))
  {
    hide IssueStep, WorkStep;
  }

  /** A run that cannot draw its first challenge ends at once with an error,
      partial, with nothing taken from the quota and nothing sent. */
  lemma FailedPrimeEndsRun(c: Setup, s: State, events: seq<Event>, t: State)
    requires Initial(s) && Executes(c, s, events, t) && PrimeAuth(false) in events
    ensures t.issuer.pc == Done && t.outcome == Outcome(Error, true, 0)
    ensures t.jobs == [] && t.ctl.used == 0 && t.counts.sent == 0
  {
    hide Executes;
    EndsWhilePriming(c, s, events, t);
  }

  lemma {:induction false} EndsWhilePriming(c: Setup, s: State, events: seq<Event>, t: State)
    requires s.issuer.pc == Prime && Untouched(s) && Executes(c, s, events, t) && PrimeAuth(false) in events
    ensures t.issuer.pc == Done && t.outcome == Outcome(Error, true, 0)
    ensures t.jobs == [] && t.ctl.used == 0 && t.counts.sent == 0
    decreases |events|
  {
    hide IssueStep, WorkStep;
    var m := Next(c, s, events[0]);
    match events[0]
    case Cancel => EndsWhilePriming(c, m, events[1..], t);
    case PrimeAuth(ok) =>
      if ok {
        PrimesOnce(c, m, events[1..], t);
      } else {
        StaysUnprimed(c, m, events[1..], t);
      }
    case _ =>
  }

  /** The first challenge is drawn once. */
  lemma {:induction false} PrimesOnce(c: Setup, s: State, events: seq<Event>, t: State)
    requires s.issuer.pc != Prime && Executes(c, s, events, t)
    ensures forall ok :: PrimeAuth(ok) !in events
    decreases |events|
  {
    if events != [] {
      NotPrimeNext(c, s, events[0]);
      hide Next;
      PrimesOnce(c, Next(c, s, events[0]), events[1..], t);
    }
  }

  lemma NotPrimeNext(c: Setup, s: State, e: Event)
    requires s.issuer.pc != Prime && Enabled(c, s, e)
    ensures Next(c, s, e).issuer.pc != Prime
  {
    if e.Issue? {
      RunOutcome.NeverPrimesAgain(c, s, e.alt);
    }
    hide IssueStep, BreakerSpec.Tripped;
  }

  // ----- after a signal

  /** Cancelled, and not reported complete. */
  predicate Signalled(s: State) {
    s.ctl.cancelled && (s.issuer.pc.Done? ==> s.outcome.reason != Completed && s.outcome.partial)
  }

  lemma StepKeepsSignalled(c: Setup, s: State, e: Event)
    requires Signalled(s) && Enabled(c, s, e)
    ensures Signalled(Next(c, s, e))
  {
    hide IssueStep, WorkStep, BreakerSpec.Tripped;
    match e
    case Issue(alt) => IssuerKeepsSignalled(c, s, alt);
    case Land(_, _, _) => RunOutcome.JobFrame(c, s, e);
    case Work(_, _) => RunOutcome.JobFrame(c, s, e);
    case Cancel =>
    case PrimeAuth(_) =>
  }

  lemma IssuerKeepsSignalled(c: Setup, s: State, alt: bool)
    requires Signalled(s) && IssueEnabled(c, s, alt)
    ensures Signalled(IssueStep(c, s, alt))
  {
    hide Signalled, PlanningStep, CheckingStep, TakingStep, LaunchStep, ReturningStep, EndingStep, StoppingStep, FinishingStep;
    RunBreaker.NotYetRead(c, s, alt);
    CancelledWhilePlanning(c, s, alt);
    CancelledLater(c, s);
    match s.issuer.pc
    case TopStopped | TopCancelled | PlanStage | NextStage => UnreadIsSignalled(s, PlanningStep(c, s, alt));
    case LoopTop | Sleep | StopCheck | CancelCheck | TakeSlot | AwaitSlot => UnreadIsSignalled(s, CheckingStep(c, s, alt));
    case ClosedCheck | LoadUsed | Swap | MarkSent => UnreadIsSignalled(s, TakingStep(c, s));
    case Launch => UnreadIsSignalled(s, LaunchStep(c, s));
    case AwaitInline | Guard | FreeSlot | TruncGuard => UnreadIsSignalled(s, ReturningStep(c, s));
    case StageEnd | ErrorCheck | EndStopped | EndCancelled => UnreadIsSignalled(s, EndingStep(s));
    case CallStop(_, _) => UnreadIsSignalled(s, StoppingStep(s));
    case CallClose(_) => UnreadIsSignalled(s, StoppingStep(s));
    case _ => ReadsSignal(s, alt);
  }

  lemma UnreadIsSignalled(s: State, t: State)
    requires Signalled(s) && t.ctl.cancelled == s.ctl.cancelled && !RunBreaker.Read(t.issuer.pc)
    ensures Signalled(t)
  {
  }

  /** Only reading the signal ends a run. */
  lemma ReadsSignal(s: State, alt: bool)
    requires Signalled(s) && (s.issuer.pc.Drain? || s.issuer.pc.ReadReason? || s.issuer.pc.ReadCancel?)
    ensures Signalled(FinishingStep(s, alt))
  {
  }

  lemma CancelledWhilePlanning(c: Setup, s: State, alt: bool)
    ensures PlanningStep(c, s, alt).ctl.cancelled == s.ctl.cancelled
    ensures CheckingStep(c, s, alt).ctl.cancelled == s.ctl.cancelled
  {
    hide Planned, InSequential;
  }

  lemma CancelledLater(c: Setup, s: State)
    ensures TakingStep(c, s).ctl.cancelled == LaunchStep(c, s).ctl.cancelled == s.ctl.cancelled
    ensures ReturningStep(c, s).ctl.cancelled == EndingStep(s).ctl.cancelled == StoppingStep(s).ctl.cancelled == s.ctl.cancelled
  {
    hide InSequential, QuotaSpec.Available;
  }

  /** A run cancelled before it is over is never reported complete. */
  lemma {:induction false} CancelledNeverComplete(c: Setup, m: State, events: seq<Event>, t: State)
    requires m.ctl.cancelled && !m.issuer.pc.Done? && Executes(c, m, events, t)
    ensures t.issuer.pc.Done? ==> t.outcome.reason != Completed && t.outcome.partial
  {
    RunKeepsSignalled(c, m, events, t);
  }

  lemma {:induction false} RunKeepsSignalled(c: Setup, s: State, events: seq<Event>, t: State)
    requires Signalled(s) && Executes(c, s, events, t)
    ensures Signalled(t)
    decreases |events|
  {
    hide Signalled, Next, Enabled;
    if events != [] {
      StepKeepsSignalled(c, s, events[0]);
      RunKeepsSignalled(c, Next(c, s, events[0]), events[1..], t);
    }
  }

  // ----- how far the issuer still gets

  predicate ShouldStop(s: State) {
    s.ctl.stopped || s.ctl.cancelled
  }

  /** Once the run should stop, every unit taken is a late one. */
  lemma StepTakesLate(c: Setup, s: State, e: Event)
    requires ShouldStop(s) && RunOutcome.ProgressInv(c, s) && Enabled(c, s, e)
    ensures ShouldStop(Next(c, s, e))
    ensures Next(c, s, e).ctl.used - s.ctl.used == Next(c, s, e).ctl.late - s.ctl.late
  {
    hide IssueStep, WorkStep, BreakerSpec.Tripped;
    match e
    case Issue(alt) => IssuerTakesLate(c, s, alt);
    case Land(_, _, _) => RunOutcome.JobFrame(c, s, e);
    case Work(_, _) => RunOutcome.JobFrame(c, s, e);
    case Cancel =>
    case PrimeAuth(_) =>
  }

  lemma IssuerTakesLate(c: Setup, s: State, alt: bool)
    requires ShouldStop(s) && (s.issuer.pc.Swap? ==> s.issuer.cur == s.ctl.used) && IssueEnabled(c, s, alt)
    ensures ShouldStop(IssueStep(c, s, alt))
    ensures IssueStep(c, s, alt).ctl.used - s.ctl.used == IssueStep(c, s, alt).ctl.late - s.ctl.late
  {
    hide PlanningStep, CheckingStep, TakingStep, LaunchStep, ReturningStep, EndingStep, StoppingStep, FinishingStep;
    PlanningTakesNone(c, s, alt);
    SwapTakesLate(c, s);
    OthersTakeNone(c, s, alt);
  }

  lemma PlanningTakesNone(c: Setup, s: State, alt: bool)
    requires ShouldStop(s)
    ensures var t := PlanningStep(c, s, alt); ShouldStop(t) && t.ctl.used == s.ctl.used && t.ctl.late == s.ctl.late
    ensures var t := CheckingStep(c, s, alt); ShouldStop(t) && t.ctl.used == s.ctl.used && t.ctl.late == s.ctl.late
  {
    hide Planned, InSequential;
  }

  lemma SwapTakesLate(c: Setup, s: State)
    requires ShouldStop(s) && (s.issuer.pc.Swap? ==> s.issuer.cur == s.ctl.used)
    ensures var t := TakingStep(c, s); ShouldStop(t) && t.ctl.used - s.ctl.used == t.ctl.late - s.ctl.late
  {
    hide QuotaSpec.Available, InSequential;
  }

  lemma OthersTakeNone(c: Setup, s: State, alt: bool)
    requires ShouldStop(s)
    ensures var t := LaunchStep(c, s); ShouldStop(t) && t.ctl.used == s.ctl.used && t.ctl.late == s.ctl.late
    ensures var t := ReturningStep(c, s); ShouldStop(t) && t.ctl.used == s.ctl.used && t.ctl.late == s.ctl.late
    ensures var t := EndingStep(s); ShouldStop(t) && t.ctl.used == s.ctl.used && t.ctl.late == s.ctl.late
    ensures var t := StoppingStep(s); ShouldStop(t) && t.ctl.used == s.ctl.used && t.ctl.late == s.ctl.late
    ensures var t := FinishingStep(s, alt); ShouldStop(t) && t.ctl.used == s.ctl.used && t.ctl.late == s.ctl.late
  {
    hide InSequential;
  }

  lemma {:induction false} RunTakesLate(c: Setup, s: State, events: seq<Event>, t: State)
    requires ShouldStop(s) && RunOutcome.Inv(c, s) && Executes(c, s, events, t)
    ensures t.ctl.used - s.ctl.used == t.ctl.late - s.ctl.late
    decreases |events|
  {
    hide ShouldStop, RunOutcome.StopInv, RunOutcome.TripInv, RunOutcome.LateInv, RunOutcome.ProgressInv, Next, Enabled;
    if events != [] {
      StepTakesLate(c, s, events[0]);
      RunOutcome.StepKeepsInv(c, s, events[0]);
      RunTakesLate(c, Next(c, s, events[0]), events[1..], t);
    }
  }

  /** From any moment at which the run has been stopped or cancelled, at most one
      further unit is ever taken. */
  lemma AtMostOneMore(c: Setup, s: State, events: seq<Event>, m: State, more: seq<Event>, t: State)
    requires Initial(s) && Executes(c, s, events, m) && Executes(c, m, more, t)
    requires m.ctl.stopped || m.ctl.cancelled
    ensures m.ctl.used <= t.ctl.used <= m.ctl.used + 1
  {
    RunOutcome.InitialInv(c, s);
    RunOutcome.RunKeepsInv(c, s, events, m);
    RunOutcome.RunKeepsInv(c, m, more, t);
    RunTakesLate(c, m, more, t);
    LateOnlyGrows(c, m, more, t);
    hide Executes, RunOutcome.TripInv, RunOutcome.ProgressInv, BreakerSpec.Tripped;
  }

  lemma {:induction false} LateOnlyGrows(c: Setup, s: State, events: seq<Event>, t: State)
    requires Executes(c, s, events, t)
    ensures s.ctl.late <= t.ctl.late
    decreases |events|
  {
    hide Next, Enabled;
    if events != [] {
      LateStep(c, s, events[0]);
      LateOnlyGrows(c, Next(c, s, events[0]), events[1..], t);
    }
  }

  lemma LateStep(c: Setup, s: State, e: Event)
    requires Enabled(c, s, e)
    ensures s.ctl.late <= Next(c, s, e).ctl.late
  {
    hide IssueStep, WorkStep;
    match e
    case Issue(alt) => IssuerLate(c, s, alt);
    case Land(_, _, _) => RunOutcome.JobFrame(c, s, e);
    case Work(_, _) => RunOutcome.JobFrame(c, s, e);
    case Cancel =>
    case PrimeAuth(_) =>
  }

  lemma IssuerLate(c: Setup, s: State, alt: bool)
    requires IssueEnabled(c, s, alt)
    ensures s.ctl.late <= IssueStep(c, s, alt).ctl.late
  {
    hide PlanningStep, CheckingStep, TakingStep, LaunchStep, ReturningStep, EndingStep, StoppingStep, FinishingStep;
    LateFirstHalf(c, s, alt);
    LateSecondHalf(c, s, alt);
  }

  lemma LateFirstHalf(c: Setup, s: State, alt: bool)
    ensures s.ctl.late <= PlanningStep(c, s, alt).ctl.late && s.ctl.late <= CheckingStep(c, s, alt).ctl.late
    ensures s.ctl.late <= TakingStep(c, s).ctl.late
  {
    hide Planned, InSequential, QuotaSpec.Available;
  }

  lemma LateSecondHalf(c: Setup, s: State, alt: bool)
    ensures s.ctl.late <= LaunchStep(c, s).ctl.late && s.ctl.late <= ReturningStep(c, s).ctl.late
    ensures s.ctl.late <= EndingStep(s).ctl.late && s.ctl.late <= StoppingStep(s).ctl.late
    ensures s.ctl.late <= FinishingStep(s, alt).ctl.late
  {
    hide InSequential;
  }
}
