/** When more requests are in flight than there are worker slots: exactly when
    the profile has a sequential stage after rate stages that together plan as
    many requests as there are slots.
 */
module RunSlots {
  import opened Common
  import opened Fold
  import opened Profile
  import opened RunEngine
  import opened RunPaths
  import RunOutcome
  import RunAccounting
  import RunAccepted
  import BreakerSpec
  import QuotaSpec

  /** What the rate stages among the first n plan. */
  function RatePlanned(stages: seq<Stage>, n: nat): int
    requires n <= |stages|
  {
    if n == 0 then 0
    else RatePlanned(stages, n - 1) + if stages[n - 1].mode == Sequential then 0 else Planned(stages[n - 1])
  }

  /** Some sequential stage comes after enough rate requests to fill the slots. */
  ghost predicate Overflows(stages: seq<Stage>, slots: int) {
    exists j :: 0 <= j < |stages| && stages[j].mode == Sequential && RatePlanned(stages, j) >= slots
  }

  function RateJobs(): Job -> int {
    (j: Job) => if j.inline then 0 else 1
  }

  // ----- staying within the slots

  predicate BeforeStage(pc: Pc) {
    match pc
    case Prime | TopStopped | TopCancelled | PlanStage => true
    case _ => false
  }

  /** No more rate workers were ever started than the stages so far plan. */
  ghost predicate RateInv(c: Setup, s: State) {
    var i := s.issuer;
    && (i.stage < |c.stages| ==> Sum(s.jobs, RateJobs()) <= RatePlanned(c.stages, i.stage + 1))
    && (BeforeStage(i.pc) ==> i.stage <= |c.stages| && Sum(s.jobs, RateJobs()) <= RatePlanned(c.stages, i.stage))
    && (Issuing(i.pc) && i.stage < |c.stages| && !InSequential(c, i.stage) ==>
          Sum(s.jobs, RateJobs()) <= RatePlanned(c.stages, i.stage) + i.k)
    && (i.pc.AwaitInline? ==> InSequential(c, i.stage))
  }

  lemma RatePlannedNext(stages: seq<Stage>, n: nat)
    requires n < |stages| && ValidStage(stages[n])
    ensures RatePlanned(stages, n) <= RatePlanned(stages, n + 1)
    ensures RatePlanned(stages, n + 1) ==
            RatePlanned(stages, n) + if stages[n].mode == Sequential then 0 else Planned(stages[n])
  {
    hide Truncate;
  }

  lemma RateKeptByIssuer(c: Setup, s: State, alt: bool)
    requires RunAccepted.Fits(c) && RateInv(c, s) && RunOutcome.ProgressInv(c, s) && RunAccepted.Inv(c, s)
    requires IssueEnabled(c, s, alt)
    ensures RateInv(c, IssueStep(c, s, alt))
  {
    hide RunAccepted.Fits, RateInv, RunOutcome.ProgressInv, RunAccepted.Inv;
    hide PlanningStep, CheckingStep, TakingStep, LaunchStep, ReturningStep, EndingStep, StoppingStep, FinishingStep;
    match s.issuer.pc
    case TopStopped | TopCancelled | PlanStage | NextStage => RateKeptByPlanning(c, s, alt);
    case LoopTop | Sleep | StopCheck | CancelCheck | TakeSlot | AwaitSlot => RateKeptByChecking(c, s, alt);
    case ClosedCheck | LoadUsed | Swap | MarkSent => RateKeptByTaking(c, s);
    case Launch => RateKeptByLaunch(c, s);
    case AwaitInline | Guard | FreeSlot | TruncGuard => RateKeptByReturning(c, s);
    case StageEnd | ErrorCheck | EndStopped | EndCancelled => RateKeptByEnding(c, s);
    case CallStop(_, _) => RateKeptByStopping(c, s);
    case CallClose(_) => RateKeptByStopping(c, s);
    case _ => RateKeptByFinishing(c, s, alt);
  }

  lemma RateKeptByPlanning(c: Setup, s: State, alt: bool)
    requires RunAccepted.Fits(c) && RateInv(c, s) && RunOutcome.ProgressInv(c, s)
    requires s.issuer.pc.TopStopped? || s.issuer.pc.TopCancelled? || s.issuer.pc.PlanStage? || s.issuer.pc.NextStage?
    ensures RateInv(c, PlanningStep(c, s, alt))
  {
    hide RateInv, RunAccepted.Fits, RunOutcome.ProgressInv, PlanStep;
    match s.issuer.pc
    case PlanStage => RateKeptByPlan(c, s);
    case NextStage => RateKeptByNext(c, s, alt);
    case _ => RateKeptAtTop(c, s, alt);
  }

  lemma RateKeptAtTop(c: Setup, s: State, alt: bool)
    requires RateInv(c, s) && (s.issuer.pc.TopStopped? || s.issuer.pc.TopCancelled?)
    ensures RateInv(c, PlanningStep(c, s, alt))
  {
    hide PlanStep, InSequential, RatePlanned, Sum;
  }

  lemma RateKeptByNext(c: Setup, s: State, alt: bool)
    requires RunAccepted.Fits(c) && RateInv(c, s) && RunOutcome.ProgressInv(c, s) && s.issuer.pc.NextStage?
    ensures RateInv(c, PlanningStep(c, s, alt))
  {
    assert s.issuer.stage < |c.stages|;
    if s.issuer.stage + 1 < |c.stages| {
      RatePlannedNext(c.stages, s.issuer.stage + 1);
    }
    hide RunAccepted.Fits, RunOutcome.ProgressInv, PlanStep, InSequential, RatePlanned, Sum, Planned;
  }

  lemma RateKeptByPlan(c: Setup, s: State)
    requires RunAccepted.Fits(c) && RateInv(c, s) && s.issuer.pc.PlanStage?
    ensures RateInv(c, PlanStep(c, s))
  {
    if s.issuer.stage < |c.stages| {
      RatePlannedNext(c.stages, s.issuer.stage);
    }
    hide Planned, InSequential, RatePlanned, Sum, RunAccepted.Fits;
  }

  lemma RateKeptByChecking(c: Setup, s: State, alt: bool)
    requires RateInv(c, s) && IssueEnabled(c, s, alt)
    requires s.issuer.pc.LoopTop? || s.issuer.pc.Sleep? || s.issuer.pc.StopCheck? || s.issuer.pc.CancelCheck?
             || s.issuer.pc.TakeSlot? || s.issuer.pc.AwaitSlot?
    ensures RateInv(c, CheckingStep(c, s, alt))
  {
    hide InSequential, RatePlanned, Sum;
  }

  lemma RateKeptByTaking(c: Setup, s: State)
    requires RateInv(c, s)
    requires s.issuer.pc.ClosedCheck? || s.issuer.pc.LoadUsed? || s.issuer.pc.Swap? || s.issuer.pc.MarkSent?
    ensures RateInv(c, TakingStep(c, s))
  {
    hide InSequential, RatePlanned, Sum, QuotaSpec.Available;
  }

  lemma RateKeptByLaunch(c: Setup, s: State)
    requires RunAccepted.Fits(c) && RateInv(c, s) && RunOutcome.ProgressInv(c, s) && RunAccepted.Inv(c, s)
    requires s.issuer.pc.Launch?
    ensures RateInv(c, LaunchStep(c, s))
  {
    RatePlannedNext(c.stages, s.issuer.stage);
    SumAppend(s.jobs, Job(InSequential(c, s.issuer.stage), ATTEMPT, false, false, false), RateJobs());
    hide Planned, RatePlanned, Sum, RunOutcome.PlannedUpTo;
  }

  lemma RateKeptByReturning(c: Setup, s: State)
    requires RateInv(c, s) && RunOutcome.Returns(s.issuer.pc)
    ensures RateInv(c, ReturningStep(c, s))
  {
    hide InSequential, RatePlanned, Sum;
  }

  lemma RateKeptByEnding(c: Setup, s: State)
    requires RateInv(c, s)
    requires s.issuer.pc.StageEnd? || s.issuer.pc.ErrorCheck? || s.issuer.pc.EndStopped? || s.issuer.pc.EndCancelled?
    ensures RateInv(c, EndingStep(s))
  {
    hide InSequential, RatePlanned, Sum;
  }

  lemma RateKeptByStopping(c: Setup, s: State)
    requires RateInv(c, s) && (s.issuer.pc.CallStop? || s.issuer.pc.CallClose?)
    ensures RateInv(c, StoppingStep(s))
  {
    hide InSequential, RatePlanned, Sum;
  }

  lemma RateKeptByFinishing(c: Setup, s: State, alt: bool)
    requires RateInv(c, s) && (s.issuer.pc.Drain? || s.issuer.pc.ReadReason? || s.issuer.pc.ReadCancel?)
    ensures RateInv(c, FinishingStep(s, alt))
  {
    hide InSequential, RatePlanned, Sum;
  }

  lemma StepKeepsRate(c: Setup, s: State, e: Event)
    requires RunAccepted.Fits(c) && RateInv(c, s) && RunOutcome.Inv(c, s) && RunAccepted.Inv(c, s) && Enabled(c, s, e)
    ensures RateInv(c, Next(c, s, e))
  {
    match e
    case Issue(alt) =>
      RateKeptByIssuer(c, s, alt);
      hide *;
    case Cancel =>
    case PrimeAuth(_) =>
      hide RatePlanned, InSequential, Sum;
    case _ =>
      RunAccounting.JobMoves(c, s, e);
      hide Next, RatePlanned, InSequential, Sum;
      SumUpdate(s.jobs, e.job, Next(c, s, e).jobs[e.job], RateJobs());
  }

  lemma {:induction false} RunKeepsRate(c: Setup, s: State, events: seq<Event>, t: State)
    requires RunAccepted.Fits(c) && RateInv(c, s) && RunOutcome.Inv(c, s) && RunAccepted.Inv(c, s)
    requires Executes(c, s, events, t)
    ensures RateInv(c, t)
    decreases |events|
  {
    hide RunAccepted.Fits, RateInv, RunOutcome.Inv, RunAccepted.Inv, Next, Enabled;
    if events != [] {
      StepKeepsRate(c, s, events[0]);
      RunOutcome.StepKeepsInv(c, s, events[0]);
      RunAccepted.StepKeepsInv(c, s, events[0]);
      RunKeepsRate(c, Next(c, s, events[0]), events[1..], t);
    }
  }

  function InlineInFlight(): Job -> int {
    (j: Job) => if j.inline && j.pc == ATTEMPT then 1 else 0
  }

  function RateInFlight(): Job -> int {
    (j: Job) => if !j.inline && j.pc == ATTEMPT then 1 else 0
  }

  /** In flight beyond the slots there is one sequential request, and as many
      rate requests as there are slots. */
  lemma BeyondSlots(c: Setup, t: State)
    requires RunAccounting.Inlined(t) && Sum(t.jobs, RunAccounting.Slots()) <= c.maxConcurrency
    requires Sum(t.jobs, RunAccounting.InFlight()) > c.maxConcurrency
    ensures t.issuer.pc.AwaitInline? && Sum(t.jobs, RateJobs()) >= c.maxConcurrency
  {
    SumMonotone(t.jobs, RateInFlight(), RunAccounting.Slots());
    SumMonotone(t.jobs, RateInFlight(), RateJobs());
    SumAdd(t.jobs, RateInFlight(), InlineInFlight(), RunAccounting.InFlight());
    if t.issuer.pc.AwaitInline? {
      RunAccounting.InFlightBound(t.jobs);
    } else {
      SumZero(t.jobs, InlineInFlight());
    }
    hide RunAccounting.Slots, RunAccounting.InFlight, RateJobs, RateInFlight, InlineInFlight;
    OneInline(t);
  }

  lemma OneInline(t: State)
    requires RunAccounting.Inlined(t)
    ensures Sum(t.jobs, InlineInFlight()) <= 1
  {
    if t.jobs != [] {
      SumZero(t.jobs[..|t.jobs| - 1], InlineInFlight());
    }
  }

  lemma OverflowNeeded(c: Setup, s: State, events: seq<Event>, t: State)
    requires RunAccepted.Fits(c) && c.maxConcurrency >= 1 && Initial(s) && Executes(c, s, events, t)
    ensures Sum(t.jobs, RunAccounting.InFlight()) > c.maxConcurrency ==> Overflows(c.stages, c.maxConcurrency)
  {
    RunOutcome.InitialInv(c, s);
    StartsWithoutJobs(c, s);
    RunKeepsRate(c, s, events, t);
    RunAccounting.InitialInv(c, s);
    RunAccounting.RunKeepsInv(c, s, events, t);
    RunAccounting.AccountingAlways(c, s, events, t);
    hide Executes, RunAccepted.Fits, Sum, RunOutcome.Inv, RunAccepted.Inv;
    if Sum(t.jobs, RunAccounting.InFlight()) > c.maxConcurrency {
      BeyondSlots(c, t);
      assert c.stages[t.issuer.stage].mode == Sequential;
      assert RatePlanned(c.stages, t.issuer.stage + 1) == RatePlanned(c.stages, t.issuer.stage);
    }
  }

  lemma StartsWithoutJobs(c: Setup, s: State)
    requires RunAccepted.Fits(c) && Initial(s)
    ensures RateInv(c, s) && RunAccepted.Inv(c, s)
  {
    if |c.stages| > 0 {
      RatePlannedNext(c.stages, 0);
    }
    hide InSequential, Planned;
  }

  // ----- filling the slots and one more

  /** No attempt filed so far failed, which trips no breaker. */
  predicate AllSucceed(history: seq<bool>) {
    forall i :: 0 <= i < |history| ==> !history[i]
  }

  lemma {:induction false} NoFailures(outcomes: seq<bool>)
    requires AllSucceed(outcomes)
    ensures BreakerSpec.Failures(outcomes) == 0
  {
    if outcomes != [] {
      NoFailures(outcomes[..|outcomes| - 1]);
    }
  }

  lemma SuccessNeverTrips(cfg: BreakerSpec.Settings, history: seq<bool>)
    requires cfg.window >= 1 && AllSucceed(history)
    ensures !BreakerSpec.Tripped(cfg, history)
  {
    forall n | 0 < n <= |history| ensures !BreakerSpec.Meets(cfg, history[..n]) {
      NoFailures(BreakerSpec.LastOf(history[..n], cfg.window));
      assert !history[..n][n - 1];
      assert BreakerSpec.TrailingFailures(history[..n]) == 0;
      if cfg.errorRate > 0.0 {
        PositiveRate(cfg.errorRate, cfg.window);
      }
    }
  }

  lemma PositiveRate(rate: real, window: nat)
    requires rate > 0.0 && window >= 1
    ensures rate * window as real > 0.0
  {
  }

  /** An attempt is in flight or over and done with. */
  predicate Parked(j: Job) {
    if j.inline then j.pc == RETURN else j.pc == ATTEMPT || j.pc == GONE
  }

  /** The issuer is at the top of its loop, undisturbed, with this many rate
      requests in flight and nobody else at work. */
  ghost predicate Ready(c: Setup, s: State, held: int) {
    && s.issuer.pc == LoopTop && s.issuer.stage < |c.stages| && !s.issuer.truncated && s.issuer.err == NoError
    && 0 <= s.issuer.k <= s.issuer.planned == Planned(c.stages[s.issuer.stage])
    && s.ctl.used == RunOutcome.PlannedUpTo(c.stages, s.issuer.stage) + s.issuer.k
    && Undisturbed(s) && AllSucceed(s.history)
    && (forall j :: 0 <= j < |s.jobs| ==> Parked(s.jobs[j]))
    && s.ctl.slots == Sum(s.jobs, RunAccounting.InFlight()) == held <= c.maxConcurrency
  }

  ghost predicate Roomy(c: Setup) {
    RunAccepted.Fits(c) && c.maxConcurrency >= 1 && c.breaker.window >= 1
  }

  /** t is s after one attempt has moved on, with nothing else disturbed. */
  ghost predicate OnlyMoves(s: State, t: State, j: nat, x: Job) {
    && j < |s.jobs| && t.issuer == s.issuer && t.jobs == s.jobs[j := x] && AllSucceed(t.history)
    && t.ctl == s.ctl.(slots := t.ctl.slots, waiting := t.ctl.waiting)
  }

  lemma WorkOne(c: Setup, s: State, j: nat) returns (t: State)
    requires c.breaker.window >= 1 && AllSucceed(s.history)
    requires j < |s.jobs| && COUNT <= s.jobs[j].pc <= BREAK && s.jobs[j].ok && !s.jobs[j].own
    ensures Leads(c, s, t) && t.ctl == s.ctl
    ensures OnlyMoves(s, t, j, s.jobs[j].(pc := if s.jobs[j].pc == BREAK then RETURN else s.jobs[j].pc + 1))
  {
    StepLeads(c, s, Work(j, true));
    hide Leads;
    if s.jobs[j].pc == BREAK {
      SuccessNeverTrips(c.breaker, s.history + [false]);
    }
    hide BreakerSpec.Tripped;
    t := Next(c, s, Work(j, true));
  }

  lemma {:induction false} WorkToReturn(c: Setup, s: State, j: nat) returns (t: State)
    requires c.breaker.window >= 1 && AllSucceed(s.history)
    requires j < |s.jobs| && COUNT <= s.jobs[j].pc <= RETURN && s.jobs[j].ok && !s.jobs[j].own
    requires BREAK < s.jobs[j].pc ==> s.jobs[j].pc == RETURN
    ensures Leads(c, s, t) && t.ctl == s.ctl && OnlyMoves(s, t, j, s.jobs[j].(pc := RETURN))
    decreases RETURN - s.jobs[j].pc
  {
    hide Leads, AllSucceed;
    if s.jobs[j].pc == RETURN {
      Stays(c, s);
      t := s;
    } else {
      var m := WorkOne(c, s, j);
      t := WorkToReturn(c, m, j);
      LeadsOn(c, s, m, t);
    }
  }

  /** A request in flight succeeds and perform returns. */
  lemma Succeeds(c: Setup, s: State, j: nat) returns (t: State)
    requires c.breaker.window >= 1 && AllSucceed(s.history) && j < |s.jobs| && s.jobs[j].pc == ATTEMPT
    ensures Leads(c, s, t) && t.ctl == s.ctl
    ensures OnlyMoves(s, t, j, Job(s.jobs[j].inline, RETURN, true, false, s.jobs[j].tripped))
  {
    StepLeads(c, s, Land(j, true, false));
    var m := Next(c, s, Land(j, true, false));
    hide Leads, AllSucceed, Next, Enabled;
    t := WorkToReturn(c, m, j);
    LeadsOn(c, s, m, t);
  }

  /** A worker whose perform has returned frees its slot and leaves. */
  lemma Leaves(c: Setup, s: State, j: nat) returns (t: State)
    requires AllSucceed(s.history) && j < |s.jobs| && s.jobs[j].pc == RETURN && !s.jobs[j].inline
    ensures Leads(c, s, t) && t.ctl.slots == s.ctl.slots - 1 && OnlyMoves(s, t, j, s.jobs[j].(pc := GONE))
  {
    StepLeads(c, s, Work(j, true));
    var m := Next(c, s, Work(j, true));
    StepLeads(c, m, Work(j, true));
    t := Next(c, m, Work(j, true));
    hide Leads;
    LeadsOn(c, s, m, t);
  }

  /** With requests in flight, one of them can be brought home. */
  lemma FreesSlot(c: Setup, s: State, held: int) returns (t: State)
    requires c.breaker.window >= 1 && Ready(c, s, held) && held >= 1
    ensures Leads(c, s, t) && Ready(c, t, held - 1) && t.issuer == s.issuer
  {
    hide Leads, Undisturbed, Planned, RunOutcome.PlannedUpTo;
    var j := SomeInFlight(s.jobs);
    assert Parked(s.jobs[j]);
    var m := Succeeds(c, s, j);
    t := Leaves(c, m, j);
    LeadsOn(c, s, m, t);
    SumUpdate(s.jobs, j, t.jobs[j], RunAccounting.InFlight());
    StillUndisturbed(s, t);
    hide AllSucceed, Sum;
    assert t.jobs == s.jobs[j := t.jobs[j]];
  }

  lemma StillUndisturbed(s: State, t: State)
    requires Undisturbed(s) && t.ctl == s.ctl.(slots := t.ctl.slots, waiting := t.ctl.waiting)
    ensures Undisturbed(t)
  {
  }

  lemma {:induction false} SomeInFlight(jobs: seq<Job>) returns (j: nat)
    requires Sum(jobs, RunAccounting.InFlight()) >= 1
    ensures j < |jobs| && jobs[j].pc == ATTEMPT
  {
    if jobs[|jobs| - 1].pc == ATTEMPT {
      j := |jobs| - 1;
    } else {
      j := SomeInFlight(jobs[..|jobs| - 1]);
    }
  }

  lemma RoomToTake(c: Setup, s: State, held: int)
    requires Roomy(c) && Ready(c, s, held) && s.issuer.k < s.issuer.planned
    ensures QuotaSpec.Available(s.ctl.used, c.budget, c.hardCap)
  {
    hide Planned, Undisturbed, Sum;
    RunOutcome.PlannedUpToGrows(c.stages, s.issuer.stage + 1, |c.stages|);
  }

  /** The state once the request the issuer is about to send is in the air. */
  ghost function Airborne(c: Setup, s: State): State {
    Launched(c, if InSequential(c, s.issuer.stage) then Goto(s, ClosedCheck)
                else Goto(s, ClosedCheck).(ctl := s.ctl.(slots := s.ctl.slots + 1)))
  }

  lemma TakesOff(c: Setup, s: State, held: int)
    requires Roomy(c) && Ready(c, s, held) && s.issuer.k < s.issuer.planned
    requires !InSequential(c, s.issuer.stage) ==> held < c.maxConcurrency
    ensures Leads(c, s, Airborne(c, s))
  {
    RoomToTake(c, s, held);
    hide Leads, Launched, Planned, QuotaSpec.Available, Sum, InSequential;
    if InSequential(c, s.issuer.stage) {
      ChecksInline(c, s);
      Takes(c, Goto(s, ClosedCheck));
      LeadsOn(c, s, Goto(s, ClosedCheck), Airborne(c, s));
    } else {
      var m := Goto(s, ClosedCheck).(ctl := s.ctl.(slots := s.ctl.slots + 1));
      Checks(c, s);
      Takes(c, m);
      LeadsOn(c, s, m, Airborne(c, s));
    }
  }

  /** A rate stage with a slot free sends one more request. */
  lemma SendsRate(c: Setup, s: State, held: int)
    requires Roomy(c) && Ready(c, s, held) && s.issuer.k < s.issuer.planned
    requires !InSequential(c, s.issuer.stage) && held < c.maxConcurrency
    ensures var t := Airborne(c, s);
            && Leads(c, s, t) && Ready(c, t, held + 1)
            && t.issuer.stage == s.issuer.stage && t.issuer.k == s.issuer.k + 1 && t.issuer.planned == s.issuer.planned
  {
    TakesOff(c, s, held);
    SumAppend(s.jobs, Job(false, ATTEMPT, false, false, false), RunAccounting.InFlight());
    hide Leads, Planned, RunOutcome.PlannedUpTo, Sum, AllSucceed, InSequential;
  }

  /** A sequential stage sends one more request and waits for it. */
  lemma SendsInline(c: Setup, s: State, held: int) returns (t: State)
    requires Roomy(c) && Ready(c, s, held) && s.issuer.k < s.issuer.planned && InSequential(c, s.issuer.stage)
    ensures Leads(c, s, t) && Ready(c, t, held)
    ensures t.issuer.stage == s.issuer.stage && t.issuer.k == s.issuer.k + 1 && t.issuer.planned == s.issuer.planned
  {
    TakesOff(c, s, held);
    var air := Airborne(c, s);
    var x := Job(true, ATTEMPT, false, false, false);
    assert air.jobs == s.jobs + [x] && air.issuer.pc == AwaitInline && air.history == s.history;
    var home := Succeeds(c, air, |s.jobs|);
    t := Returned(c, home);
    AirborneInline(c, s);
    hide Leads, Ready, Roomy, Airborne, InSequential, Sum;
    LeadsOn(c, s, air, home);
    LeadsOn(c, s, home, t);
    InlineReady(c, s, t, held, home.jobs[|s.jobs|]);
  }

  lemma InlineReady(c: Setup, s: State, t: State, held: int, x: Job)
    requires Ready(c, s, held) && s.issuer.k < s.issuer.planned && AllSucceed(t.history)
    requires x.inline && x.pc == RETURN && t.jobs == s.jobs + [x]
    requires t.issuer == s.issuer.(k := s.issuer.k + 1, cur := s.ctl.used)
    requires t.ctl == s.ctl.(used := s.ctl.used + 1, slots := t.ctl.slots, waiting := t.ctl.waiting)
    requires t.ctl.slots == s.ctl.slots
    ensures Ready(c, t, held)
  {
    SumAppend(s.jobs, x, RunAccounting.InFlight());
    hide Planned, RunOutcome.PlannedUpTo, Sum, AllSucceed;
  }

  lemma AirborneInline(c: Setup, s: State)
    requires InSequential(c, s.issuer.stage)
    ensures var air := Airborne(c, s);
            && air.issuer == s.issuer.(pc := AwaitInline, cur := s.ctl.used)
            && air.ctl == s.ctl.(used := s.ctl.used + 1)
  {
  }

  lemma Returned(c: Setup, s: State) returns (t: State)
    requires s.issuer.pc == AwaitInline && s.jobs != [] && s.jobs[|s.jobs| - 1].pc == RETURN
    requires !s.jobs[|s.jobs| - 1].tripped
    ensures Leads(c, s, t) && t == s.(issuer := s.issuer.(pc := LoopTop, k := s.issuer.k + 1))
  {
    StepLeads(c, s, Issue(false));
    hide Leads;
    t := s.(issuer := s.issuer.(pc := LoopTop, k := s.issuer.k + 1));
  }

  function Least(a: int, b: int): int {
    if a < b then a else b
  }

  /** One more request, whatever the stage; when the slots are full a worker is
      brought home first. */
  lemma SendsOne(c: Setup, s: State, held: int) returns (t: State, now: int)
    requires Roomy(c) && Ready(c, s, held) && s.issuer.k < s.issuer.planned
    ensures Leads(c, s, t) && Ready(c, t, now)
    ensures now == if InSequential(c, s.issuer.stage) then held else Least(held + 1, c.maxConcurrency)
    ensures t.issuer.stage == s.issuer.stage && t.issuer.k == s.issuer.k + 1 && t.issuer.planned == s.issuer.planned
  {
    hide Leads, Airborne;
    ReadyFits(c, s, held);
    if InSequential(c, s.issuer.stage) {
      hide Ready;
      now := held;
      t := SendsInline(c, s, held);
    } else if held < c.maxConcurrency {
      hide Ready;
      now := held + 1;
      SendsRate(c, s, held);
      t := Airborne(c, s);
    } else {
      hide Ready;
      now := held;
      var m := FreesSlot(c, s, held);
      SendsRate(c, m, held - 1);
      t := Airborne(c, m);
      LeadsOn(c, s, m, t);
    }
  }

  lemma ReadyFits(c: Setup, s: State, held: int)
    requires Ready(c, s, held)
    ensures held <= c.maxConcurrency && s.issuer.stage < |c.stages|
    ensures s.issuer.planned == Planned(c.stages[s.issuer.stage]) && s.issuer.k <= s.issuer.planned
  {
  }

  /** The rest of a stage. */
  lemma {:induction false} SendsRest(c: Setup, s: State, held: int) returns (t: State, now: int)
    requires Roomy(c) && Ready(c, s, held)
    ensures Leads(c, s, t) && Ready(c, t, now)
    ensures t.issuer.stage == s.issuer.stage && t.issuer.k == t.issuer.planned
    ensures now == if InSequential(c, s.issuer.stage) then held
                   else Least(held + (s.issuer.planned - s.issuer.k), c.maxConcurrency)
    decreases s.issuer.planned - s.issuer.k
  {
    hide Leads, InSequential, Planned;
    ReadyFits(c, s, held);
    hide Ready;
    if s.issuer.k == s.issuer.planned {
      Stays(c, s);
      t, now := s, held;
    } else {
      var m, one := SendsOne(c, s, held);
      ReadyFits(c, m, one);
      t, now := SendsRest(c, m, one);
      LeadsOn(c, s, m, t);
    }
  }

  lemma PlansStage(c: Setup, s: State, held: int) returns (t: State)
    requires Roomy(c) && Undisturbed(s) && s.issuer.pc == TopStopped && s.issuer.stage < |c.stages|
    requires s.issuer.err == NoError && s.ctl.used == RunOutcome.PlannedUpTo(c.stages, s.issuer.stage)
    requires AllSucceed(s.history) && (forall j :: 0 <= j < |s.jobs| ==> Parked(s.jobs[j]))
    requires s.ctl.slots == Sum(s.jobs, RunAccounting.InFlight()) == held <= c.maxConcurrency
    ensures Leads(c, s, t) && Ready(c, t, held) && t.issuer.stage == s.issuer.stage && t.issuer.k == 0
  {
    hide Leads, Sum, AllSucceed, Planned;
    StageFits(c, s.issuer.stage);
    Plans(c, s);
    t := s.(issuer := s.issuer.(
      pc := LoopTop, k := 0, planned := Planned(c.stages[s.issuer.stage]), truncated := false));
  }

  lemma StageFits(c: Setup, i: nat)
    requires RunAccepted.Fits(c) && i < |c.stages|
    ensures 1 <= Planned(c.stages[i]) <= c.budget - RunOutcome.PlannedUpTo(c.stages, i)
    ensures c.stages[i].mode != Sequential ==> c.stages[i].tps > 0.0
    ensures RunOutcome.PlannedUpTo(c.stages, i + 1) == RunOutcome.PlannedUpTo(c.stages, i) + Planned(c.stages[i])
  {
    assert ValidStage(c.stages[i]);
    hide Truncate;
    RunOutcome.PlannedUpToGrows(c.stages, i + 1, |c.stages|);
  }

  /** From one stage, issued in full, to the top of the next. */
  lemma NextStageReady(c: Setup, s: State, held: int) returns (t: State)
    requires Roomy(c) && Ready(c, s, held) && s.issuer.k == s.issuer.planned && s.issuer.stage + 1 < |c.stages|
    ensures Leads(c, s, t) && Ready(c, t, held) && t.issuer.stage == s.issuer.stage + 1 && t.issuer.k == 0
  {
    hide Leads, Sum, AllSucceed, Planned, RunOutcome.PlannedUpTo;
    StageFits(c, s.issuer.stage);
    Ends(c, s);
    var top := s.(issuer := s.issuer.(pc := TopStopped, stage := s.issuer.stage + 1));
    t := PlansStage(c, top, held);
    LeadsOn(c, s, top, t);
  }

  /** Every stage can be reached with as many rate requests in flight as the
      stages before it plan and the slots allow. */
  lemma {:induction false} ReachesStage(c: Setup, s: State, j: nat) returns (t: State, held: int)
    requires Roomy(c) && Started(s) && j < |c.stages|
    ensures Leads(c, s, t) && Ready(c, t, held) && t.issuer.stage == j && t.issuer.k == 0
    ensures held == Least(RatePlanned(c.stages, j), c.maxConcurrency)
  {
    hide Leads, Planned, Undisturbed;
    if j == 0 {
      held := 0;
      t := PlansStage(c, s, 0);
    } else {
      var a, before := ReachesStage(c, s, j - 1);
      ReadyFits(c, a, before);
      var b, now := SendsRest(c, a, before);
      t := NextStageReady(c, b, now);
      held := now;
      LeadsOn(c, s, a, b);
      LeadsOn(c, s, b, t);
      StageFits(c, j - 1);
    }
  }

  /** Authenticated and about to plan the first stage. */
  ghost predicate Started(s: State) {
    && Undisturbed(s) && s.issuer.pc == TopStopped && s.issuer.stage == 0 && s.issuer.err == NoError
    && s.ctl.used == s.ctl.slots == 0 && s.jobs == [] && s.history == []
  }

  // ----- main result

  /** Some run has this many requests in flight at once. */
  ghost predicate CanHaveInFlight(c: Setup, n: int) {
    exists s, events, t :: Initial(s) && Executes(c, s, events, t) && Sum(t.jobs, RunAccounting.InFlight()) == n
  }

  lemma OverflowReached(c: Setup, s: State, j: nat) returns (t: State)
    requires Roomy(c) && Started(s) && j < |c.stages|
    requires c.stages[j].mode == Sequential && RatePlanned(c.stages, j) >= c.maxConcurrency
    ensures Leads(c, s, t) && Sum(t.jobs, RunAccounting.InFlight()) == c.maxConcurrency + 1
  {
    hide Leads, Undisturbed;
    var m, held := ReachesStage(c, s, j);
    StageFits(c, j);
    TakesOff(c, m, held);
    t := Airborne(c, m);
    LeadsOn(c, s, m, t);
    SumAppend(m.jobs, Job(true, ATTEMPT, false, false, false), RunAccounting.InFlight());
    hide Planned, Sum;
    assert t.jobs == m.jobs + [Job(true, ATTEMPT, false, false, false)];
  }

  /** A run begins by drawing the first challenge. */
  lemma Starts(c: Setup) returns (s: State, t: State)
    ensures Initial(s) && Started(t) && Leads(c, s, t) && t == s.(issuer := s.issuer.(pc := TopStopped))
  {
    s := State(
      Issuer(Prime, 0, 0, 0, false, NoError, 0, false),
      Control(false, false, None, false, 0, 0, 0, 0),
      Counts(0, 0, 0, 0, 0, 0, 0, 0, 0),
      [], [], Outcome(Completed, false, 0));
    StepLeads(c, s, PrimeAuth(true));
    t := s.(issuer := s.issuer.(pc := TopStopped));
  }

  /** An accepted profile can put more requests in flight than there are worker
      slots, one more and never two, if and only if one of its sequential stages
      comes after rate stages that plan at least as many requests as there are
      slots. */
  lemma InFlightExceedsSlotsExactly(c: Setup, l: Limits, p: Profile, requested: int)
    requires RunAccepted.AcceptedSetup(c, l, p, requested) && c.breaker.window >= 1
    ensures CanHaveInFlight(c, c.maxConcurrency + 1) <==> Overflows(p.stages, c.maxConcurrency)
    ensures forall n :: CanHaveInFlight(c, n) ==>
              n <= c.maxConcurrency + if Overflows(p.stages, c.maxConcurrency) then 1 else 0
  {
    RunAccepted.AcceptedSetupFits(c, l, p, requested);
    assert c.stages == p.stages && c.maxConcurrency >= 1;
    hide RunAccepted.AcceptedSetup, RunAccepted.Fits, Initial, Executes;
    if Overflows(c.stages, c.maxConcurrency) {
      var j :| 0 <= j < |c.stages| && c.stages[j].mode == Sequential && RatePlanned(c.stages, j) >= c.maxConcurrency;
      var s, started := Starts(c);
      var t := OverflowReached(c, started, j);
      LeadsOn(c, s, started, t);
      var events :| Executes(c, s, events, t);
      assert CanHaveInFlight(c, c.maxConcurrency + 1);
    }
    forall n | CanHaveInFlight(c, n)
      ensures n > c.maxConcurrency ==> n == c.maxConcurrency + 1 && Overflows(c.stages, c.maxConcurrency)
    {
      var s, events, t :| Initial(s) && Executes(c, s, events, t) && Sum(t.jobs, RunAccounting.InFlight()) == n;
      OverflowNeeded(c, s, events, t);
      RunAccounting.AccountingAlways(c, s, events, t);
    }
  }
}
