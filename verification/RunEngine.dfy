/** The run engine as a transition system: one issuing goroutine walking the
    stages, any number of workers, a cancel signal, a circuit breaker, the
    request budget and the final drain. Every atomic operation or locked section
    of the engine is one step, and any enabled step may come next.
 */
module RunEngine {
  import opened Common
  import opened Profile
  import BreakerSpec
  import QuotaSpec

  // ----- attempts

  // What an attempt does next, in the order perform does it.
  const ATTEMPT := 0 // in flight
  const COUNT := 1 // Completed
  const SAMPLE := 2 // the Total histogram
  const CLASS := 3 // the error distribution
  const VERDICT := 4 // Success or Failure
  const SINK := 5 // the audit row
  const BREAK := 6 // the circuit breaker
  const STOP := 7 // stop: win or lose the swap on stopped
  const CLOSE := 8 // stop: close the quota
  const RETURN := 9 // perform has returned; a worker frees its slot
  const LEAVE := 10 // a worker leaves the wait group
  const GONE := 11

  /** inline: issued by a sequential stage, on the issuing goroutine. own: failed
      only because the run cancelled it. */
  datatype Job = Job(inline: bool, pc: nat, ok: bool, own: bool, tripped: bool)

  // ----- the issuing goroutine

  datatype Reason = Completed | Signal | QuotaExhausted | AutoAbort | Error

  datatype StageError = NoError | Stopped | Interrupted | BadRate

  /** Where issuing resumes after a call to stop. */
  datatype Resume = Guarding | TruncGuarding | Draining

  datatype Pc =
    | Prime
    | TopStopped | TopCancelled | PlanStage
    | LoopTop | Sleep | StopCheck | CancelCheck | TakeSlot | AwaitSlot
    | ClosedCheck | LoadUsed | Swap | MarkSent | Launch | AwaitInline
    | Guard | FreeSlot
    | StageEnd | TruncGuard | ErrorCheck | EndStopped | EndCancelled | NextStage
    | CallStop(reason: Reason, resume: Resume) | CallClose(resume: Resume)
    | Drain | ReadReason | ReadCancel | Done

  datatype Issuer = Issuer(
    pc: Pc, stage: nat, k: int, planned: int, truncated: bool, err: StageError, cur: int, drained: bool)

  /** late counts the units taken after the run was stopped or cancelled. */
  datatype Control = Control(
    stopped: bool, closed: bool, reason: Option<Reason>, cancelled: bool, used: int, slots: int, waiting: int, late: nat)

  datatype Counts = Counts(
    sent: int, completed: int, samples: int, classes: int, success: int, failure: int, rows: int, lost: int, guards: int)

  datatype Outcome = Outcome(reason: Reason, partial: bool, quotaUsed: int)

  datatype State = State(
    issuer: Issuer, ctl: Control, counts: Counts, jobs: seq<Job>, history: seq<bool>, outcome: Outcome)

  datatype Setup = Setup(
    stages: seq<Stage>, budget: int, hardCap: int, maxConcurrency: int, breaker: BreakerSpec.Settings)

  /** alt picks the other branch where the issuer has a choice it does not
      control: a sleep cut short, a slot wait given up, a grace period elapsed. */
  datatype Event =
    | Cancel
    | PrimeAuth(ok: bool)
    | Issue(alt: bool)
    | Land(job: nat, ok: bool, own: bool)
    | Work(job: nat, written: bool)

  ghost predicate Initial(s: State) {
    s == State(
           Issuer(Prime, 0, 0, 0, false, NoError, 0, false),
           Control(false, false, None, false, 0, 0, 0, 0),
           Counts(0, 0, 0, 0, 0, 0, 0, 0, 0),
           [], [], Outcome(Completed, false, 0))
  }

  /** A request of a sequential stage takes no slot. */
  predicate InSequential(c: Setup, stage: nat) {
    stage < |c.stages| && c.stages[stage].mode == Sequential
  }

  /** The steps of dispatch that runSequential does not have. */
  predicate RateOnly(pc: Pc) {
    match pc
    case Sleep | CancelCheck | TakeSlot | AwaitSlot | FreeSlot => true
    case _ => false
  }

  /** The issuer is in the loop of a stage function, before quota runs out. */
  predicate Issuing(pc: Pc) {
    match pc
    case LoopTop | Sleep | StopCheck | CancelCheck | TakeSlot | AwaitSlot => true
    case ClosedCheck | LoadUsed | Swap | MarkSent | Launch | AwaitInline => true
    case _ => false
  }

  /** stop holds its mutex from the swap on stopped to the closing of the quota. */
  predicate StopBusy(t: Control) {
    t.stopped && !t.closed
  }

  predicate IssueEnabled(c: Setup, s: State, alt: bool) {
    match s.issuer.pc
    case Prime => false
    case Sleep => alt ==> s.ctl.cancelled
    case AwaitSlot => if alt then s.ctl.cancelled else s.ctl.slots < c.maxConcurrency
    case AwaitInline => !alt && s.jobs != [] && s.jobs[|s.jobs| - 1].pc >= RETURN
    case NextStage => alt ==> s.ctl.cancelled
    case CallStop(_, _) => !alt && !StopBusy(s.ctl)
    case Drain => alt || s.ctl.waiting == 0
    case ReadReason => !alt && !StopBusy(s.ctl)
    case Done => false
    case _ => !alt
  }

  predicate Enabled(c: Setup, s: State, e: Event) {
    match e
    case Cancel => true
    case PrimeAuth(_) => s.issuer.pc == Prime
    case Issue(alt) => IssueEnabled(c, s, alt)
    case Land(j, ok, own) => j < |s.jobs| && s.jobs[j].pc == ATTEMPT && (ok ==> !own)
    case Work(j, _) =>
      && j < |s.jobs| && ATTEMPT < s.jobs[j].pc < GONE
      && (s.jobs[j].pc == STOP ==> !StopBusy(s.ctl))
      && (s.jobs[j].inline ==> s.jobs[j].pc < RETURN)
  }

  ghost function Next(c: Setup, s: State, e: Event): State
    requires Enabled(c, s, e)
  {
    match e
    case Cancel => s.(ctl := s.ctl.(cancelled := true))
    case PrimeAuth(ok) =>
      if ok then s.(issuer := s.issuer.(pc := TopStopped))
      else s.(issuer := s.issuer.(pc := Done), outcome := Outcome(Error, true, 0))
    case Issue(alt) => IssueStep(c, s, alt)
    case Land(j, ok, own) => s.(jobs := s.jobs[j := s.jobs[j].(pc := COUNT, ok := ok, own := own)])
    case Work(j, written) => WorkStep(c, s, j, written)
  }

  // ----- attempt steps

  ghost function WorkStep(c: Setup, s: State, j: nat, written: bool): State
    requires Enabled(c, s, Work(j, written))
  {
    var job := s.jobs[j];
    var t := s.(jobs := s.jobs[j := job.(pc := job.pc + 1)]);
    if job.pc == COUNT then
      t.(counts := s.counts.(completed := s.counts.completed + 1))
    else if job.pc == SAMPLE then
      t.(counts := s.counts.(samples := s.counts.samples + 1))
    else if job.pc == CLASS then
      t.(counts := s.counts.(classes := s.counts.classes + 1))
    else if job.pc == VERDICT then
      if job.ok then t.(counts := s.counts.(success := s.counts.success + 1))
      else t.(counts := s.counts.(failure := s.counts.failure + 1))
    else if job.pc == SINK then
      if written then t.(counts := s.counts.(rows := s.counts.rows + 1))
      else t.(counts := s.counts.(lost := s.counts.lost + 1))
    else if job.pc == BREAK then
      if job.own then s.(jobs := s.jobs[j := job.(pc := RETURN)])
      else
        var history := s.history + [!job.ok];
        if BreakerSpec.Tripped(c.breaker, history) then
          s.(jobs := s.jobs[j := job.(pc := STOP, tripped := true)], history := history)
        else
          s.(jobs := s.jobs[j := job.(pc := RETURN)], history := history)
    else if job.pc == STOP then
      if s.ctl.stopped then s.(jobs := s.jobs[j := job.(pc := RETURN)])
      else t.(ctl := s.ctl.(stopped := true, reason := Some(AutoAbort)))
    else if job.pc == CLOSE then
      t.(ctl := s.ctl.(closed := true))
    else if job.pc == RETURN then
      t.(ctl := s.ctl.(slots := s.ctl.slots - 1))
    else
      t.(ctl := s.ctl.(waiting := s.ctl.waiting - 1))
  }

  // ----- issuer steps

  function Goto(s: State, pc: Pc): State {
    s.(issuer := s.issuer.(pc := pc))
  }

  /** The stage function returns. */
  function EndStage(s: State, err: StageError): State {
    s.(issuer := s.issuer.(pc := StageEnd, err := err))
  }

  function ResumeAt(resume: Resume): Pc {
    match resume
    case Guarding => Guard
    case TruncGuarding => TruncGuard
    case Draining => Drain
  }

  function IssueStep(c: Setup, s: State, alt: bool): State
    requires IssueEnabled(c, s, alt)
  {
    match s.issuer.pc
    case TopStopped | TopCancelled | PlanStage | NextStage => PlanningStep(c, s, alt)
    case LoopTop | Sleep | StopCheck | CancelCheck | TakeSlot | AwaitSlot => CheckingStep(c, s, alt)
    case ClosedCheck | LoadUsed | Swap | MarkSent => TakingStep(c, s)
    case Launch => LaunchStep(c, s)
    case AwaitInline | Guard | FreeSlot | TruncGuard => ReturningStep(c, s)
    case StageEnd | ErrorCheck | EndStopped | EndCancelled => EndingStep(s)
    case CallStop(_, _) => StoppingStep(s)
    case CallClose(_) => StoppingStep(s)
    case _ => FinishingStep(s, alt)
  }

  /** Between stages. */
  function PlanningStep(c: Setup, s: State, alt: bool): State {
    match s.issuer.pc
    case TopStopped =>
      Goto(s, if s.issuer.stage >= |c.stages| || s.ctl.stopped then Drain else TopCancelled)
    case TopCancelled => Goto(s, if s.ctl.cancelled then Drain else PlanStage)
    case PlanStage => PlanStep(c, s)
    case _ =>
      if alt then Goto(s, Drain)
      else s.(issuer := s.issuer.(pc := TopStopped, stage := s.issuer.stage + 1))
  }

  /** The checks before a unit of quota is taken, and the wait for a slot. */
  function CheckingStep(c: Setup, s: State, alt: bool): State {
    match s.issuer.pc
    case LoopTop =>
      if s.issuer.k >= s.issuer.planned then EndStage(s, NoError)
      else if s.ctl.cancelled then EndStage(s, Interrupted)
      else Goto(s, if InSequential(c, s.issuer.stage) then StopCheck else Sleep)
    case Sleep => if alt then EndStage(s, Interrupted) else Goto(s, StopCheck)
    case StopCheck =>
      if s.ctl.stopped then EndStage(s, Stopped)
      else Goto(s, if InSequential(c, s.issuer.stage) then ClosedCheck else CancelCheck)
    case CancelCheck => if s.ctl.cancelled then EndStage(s, Interrupted) else Goto(s, TakeSlot)
    case TakeSlot => if s.ctl.slots < c.maxConcurrency then TakeSlotStep(s) else Goto(s, AwaitSlot)
    case _ => if alt then EndStage(s, Interrupted) else TakeSlotStep(s)
  }

  /** Taking one unit of quota and counting it as sent. */
  function TakingStep(c: Setup, s: State): State {
    match s.issuer.pc
    case ClosedCheck => Goto(s, if s.ctl.closed then CallStop(QuotaExhausted, Guarding) else LoadUsed)
    case LoadUsed =>
      if QuotaSpec.Available(s.ctl.used, c.budget, c.hardCap)
      then s.(issuer := s.issuer.(pc := Swap, cur := s.ctl.used))
      else Goto(s, CallStop(QuotaExhausted, Guarding))
    case Swap => SwapStep(s)
    case _ => Goto(s, Launch).(counts := s.counts.(sent := s.counts.sent + 1))
  }

  /** The inline attempt returns, or the quota guard is written. */
  function ReturningStep(c: Setup, s: State): State {
    match s.issuer.pc
    case AwaitInline =>
      if s.jobs != [] && s.jobs[|s.jobs| - 1].tripped then EndStage(s, Stopped)
      else s.(issuer := s.issuer.(pc := LoopTop, k := s.issuer.k + 1))
    case Guard =>
      var t := s.(counts := s.counts.(guards := s.counts.guards + 1));
      if InSequential(c, s.issuer.stage) then EndStage(t, Stopped) else Goto(t, FreeSlot)
    case FreeSlot => EndStage(s.(ctl := s.ctl.(slots := s.ctl.slots - 1)), Stopped)
    case _ => Goto(s, ErrorCheck).(counts := s.counts.(guards := s.counts.guards + 1))
  }

  /** After a stage: truncation, errors, and whether to go on. */
  function EndingStep(s: State): State {
    match s.issuer.pc
    case StageEnd =>
      Goto(s, if s.issuer.truncated && !s.ctl.stopped then CallStop(QuotaExhausted, TruncGuarding) else ErrorCheck)
    case ErrorCheck =>
      Goto(s, if (s.issuer.err.Interrupted? || s.issuer.err.BadRate?) && !s.ctl.cancelled
              then CallStop(Error, Draining) else EndStopped)
    case EndStopped => Goto(s, if s.ctl.stopped then Drain else EndCancelled)
    case _ => Goto(s, if s.ctl.cancelled then Drain else NextStage)
  }

  /** stop: the first caller sets the reason, then closes the quota. */
  function StoppingStep(s: State): State {
    match s.issuer.pc
    case CallStop(reason, resume) =>
      if s.ctl.stopped then Goto(s, ResumeAt(resume))
      else Goto(s, CallClose(resume)).(ctl := s.ctl.(stopped := true, reason := Some(reason)))
    case CallClose(resume) => Goto(s, ResumeAt(resume)).(ctl := s.ctl.(closed := true))
    case _ => s
  }

  /** The drain and the outcome. */
  function FinishingStep(s: State, alt: bool): State {
    match s.issuer.pc
    case Drain => s.(issuer := s.issuer.(pc := ReadReason, drained := !alt))
    case ReadReason =>
      var reason := if s.ctl.stopped && s.ctl.reason.Some? then s.ctl.reason.value else Completed;
      Goto(s, ReadCancel).(outcome := Outcome(reason, false, s.ctl.used))
    case ReadCancel =>
      var reason := if s.ctl.cancelled && s.outcome.reason == Completed then Signal else s.outcome.reason;
      Goto(s, Done).(outcome := Outcome(reason, reason != Completed || !s.issuer.drained, s.outcome.quotaUsed))
    case _ => s
  }

  /** Plans the stage within the remaining budget. */
  function PlanStep(c: Setup, s: State): State {
    if s.issuer.stage >= |c.stages| then s
    else
      var stage := c.stages[s.issuer.stage];
      var remaining := if c.budget - s.ctl.used < 0 then 0 else c.budget - s.ctl.used;
      if remaining <= 0 then Goto(s, CallStop(QuotaExhausted, Draining))
      else
        var truncated := Planned(stage) > remaining;
        var planned := if truncated then remaining else Planned(stage);
        var t := s.(issuer := s.issuer.(k := 0, planned := planned, truncated := truncated));
        if planned <= 0 then EndStage(t, NoError)
        else if stage.mode != Sequential && stage.tps <= 0.0 then EndStage(t, BadRate)
        else Goto(t, LoopTop)
  }

  function TakeSlotStep(s: State): State {
    Goto(s, ClosedCheck).(ctl := s.ctl.(slots := s.ctl.slots + 1))
  }

  function SwapStep(s: State): State {
    if s.ctl.used == s.issuer.cur then
      Goto(s, MarkSent).(
        ctl := s.ctl.(
          used := s.issuer.cur + 1,
          late := if s.ctl.stopped || s.ctl.cancelled then s.ctl.late + 1 else s.ctl.late))
    else
      Goto(s, LoadUsed)
  }

  function LaunchStep(c: Setup, s: State): State {
    var inline := InSequential(c, s.issuer.stage);
    var t := s.(jobs := s.jobs + [Job(inline, ATTEMPT, false, false, false)]);
    if inline then Goto(t, AwaitInline)
    else t.(issuer := s.issuer.(pc := LoopTop, k := s.issuer.k + 1),
            ctl := s.ctl.(waiting := s.ctl.waiting + 1))
  }

  ghost predicate Executes(c: Setup, s: State, events: seq<Event>, t: State)
    decreases |events|
  {
    if events == [] then s == t
    else Enabled(c, s, events[0]) && Executes(c, Next(c, s, events[0]), events[1..], t)
  }
}
