/** Accounting over every interleaving of the run engine: quota, counters,
    audit rows, worker slots and in-flight requests.
 */
module RunAccounting {
  import opened Common
  import opened Fold
  import opened Profile
  import opened RunEngine
  import BreakerSpec
  import QuotaSpec

  // ----- what each attempt has contributed so far

  function Past(step: nat): Job -> int {
    (j: Job) => if j.pc > step then 1 else 0
  }

  function Verdicts(ok: bool): Job -> int {
    (j: Job) => if j.pc > VERDICT && j.ok == ok then 1 else 0
  }

  function Slots(): Job -> int {
    (j: Job) => if !j.inline && j.pc <= RETURN then 1 else 0
  }

  function Waits(): Job -> int {
    (j: Job) => if !j.inline && j.pc <= LEAVE then 1 else 0
  }

  function InFlight(): Job -> int {
    (j: Job) => if j.pc == ATTEMPT then 1 else 0
  }

  /** The issuer holds a slot it has not yet handed to a worker. */
  predicate Holding(c: Setup, i: Issuer) {
    !InSequential(c, i.stage) && HoldsSlot(i.pc)
  }

  predicate HoldsSlot(pc: Pc) {
    match pc
    case ClosedCheck | LoadUsed | Swap | MarkSent | Launch | Guard | FreeSlot => true
    case CallStop(_, resume) => resume.Guarding?
    case CallClose(resume) => resume.Guarding?
    case _ => false
  }

  // ----- the invariant

  ghost predicate Counted(s: State) {
    && s.counts.completed == Sum(s.jobs, Past(COUNT))
    && s.counts.samples == Sum(s.jobs, Past(SAMPLE))
    && s.counts.classes == Sum(s.jobs, Past(CLASS))
    && s.counts.rows + s.counts.lost == Sum(s.jobs, Past(SINK))
  }

  ghost predicate Judged(s: State) {
    && s.counts.success == Sum(s.jobs, Verdicts(true))
    && s.counts.failure == Sum(s.jobs, Verdicts(false))
  }

  ghost predicate Slotted(c: Setup, s: State) {
    && s.ctl.slots == Sum(s.jobs, Slots()) + (if Holding(c, s.issuer) then 1 else 0)
    && s.ctl.slots <= c.maxConcurrency
    && (RateOnly(s.issuer.pc) ==> !InSequential(c, s.issuer.stage))
  }

  ghost predicate Awaited(s: State) {
    s.ctl.waiting == Sum(s.jobs, Waits())
  }

  ghost predicate Issued(s: State) {
    && s.ctl.used == |s.jobs| + (if s.issuer.pc.MarkSent? || s.issuer.pc.Launch? then 1 else 0)
    && s.counts.sent == |s.jobs| + (if s.issuer.pc.Launch? then 1 else 0)
    && (s.issuer.pc.Swap? ==> s.issuer.cur == s.ctl.used)
  }

  /** At most one inline attempt is unfinished: the one being awaited. */
  ghost predicate Inlined(s: State) {
    && (forall j :: 0 <= j < |s.jobs| && s.jobs[j].inline ==>
          s.jobs[j].pc <= RETURN && (s.jobs[j].pc < RETURN ==> s.issuer.pc.AwaitInline? && j == |s.jobs| - 1))
    && (forall j :: 0 <= j < |s.jobs| ==> s.jobs[j].pc <= GONE)
    && (s.issuer.pc.AwaitInline? ==> s.jobs != [] && s.jobs[|s.jobs| - 1].inline)
  }

  ghost predicate Budgeted(c: Setup, s: State) {
    && 0 <= s.ctl.used <= Max(c.budget, 0)
    && (c.hardCap > 0 ==> s.ctl.used <= c.hardCap)
    && (s.issuer.pc.Swap? ==> QuotaSpec.Available(s.issuer.cur, c.budget, c.hardCap))
  }

  /** The quota-guard row: written once, on the way out of a stopped run. */
  ghost predicate Guarded(s: State) {
    && (s.counts.guards == 0 || (s.counts.guards == 1 && s.ctl.stopped && LeavingStage(s.issuer)))
    && (s.issuer.pc.Guard? || s.issuer.pc.TruncGuard? ==> s.ctl.stopped)
    && (s.issuer.pc.CallClose? ==> s.ctl.stopped)
  }

  predicate LeavingStage(i: Issuer) {
    match i.pc
    case FreeSlot | StageEnd | ErrorCheck | EndStopped => true
    case CallStop(_, resume) => resume.Draining?
    case CallClose(resume) => resume.Draining?
    case _ => Finishing(i.pc)
  }

  predicate Finishing(pc: Pc) {
    match pc
    case Drain | ReadReason | ReadCancel | Done => true
    case _ => false
  }

  /** A drain that succeeded found every worker gone, and issues nothing more. */
  ghost predicate Drained(s: State) {
    && (s.issuer.drained ==> s.ctl.waiting == 0 && Finishing(s.issuer.pc) && !s.issuer.pc.Drain?)
    && (s.issuer.pc.Done? || s.issuer.pc.ReadCancel? ==> s.outcome.quotaUsed == s.ctl.used)
    && (s.issuer.pc.Prime? ==> s.ctl.used == 0)
  }

  ghost predicate JobInv(s: State) {
    Counted(s) && Judged(s) && Awaited(s)
  }

  ghost predicate IssuerInv(c: Setup, s: State) {
    Slotted(c, s) && Issued(s) && Inlined(s) && Budgeted(c, s) && Guarded(s) && Drained(s)
  }

  ghost predicate Inv(c: Setup, s: State) {
    JobInv(s) && IssuerInv(c, s)
  }

  /** What a step of the issuer, but for a launch, leaves alone. */
  ghost predicate JobsUntouched(s: State, t: State) {
    && t.jobs == s.jobs && t.history == s.history && t.ctl.waiting == s.ctl.waiting
    && t.counts == s.counts.(sent := t.counts.sent, guards := t.counts.guards)
  }

  lemma JobsUntouchedKeeps(s: State, t: State)
    requires JobInv(s) && JobsUntouched(s, t)
    ensures JobInv(t)
  {
  }

  // ----- attempts keep it

  /** What a step of an attempt changes in its own standing and in the slots. */
  lemma JobMoves(c: Setup, s: State, e: Event)
    requires Enabled(c, s, e) && (e.Land? || e.Work?)
    ensures var t := Next(c, s, e);
            && |t.jobs| == |s.jobs|
            && var w, x := s.jobs[e.job], t.jobs[e.job];
               && t.jobs == s.jobs[e.job := x] && t.issuer == s.issuer
               && x.inline == w.inline && (w.pc > ATTEMPT ==> x.ok == w.ok)
               && w.pc < x.pc && (w.pc < BREAK || w.pc >= RETURN ==> x.pc == w.pc + 1) && (w.pc < RETURN ==> x.pc <= RETURN)
               && t.ctl.slots == s.ctl.slots - (if w.pc == RETURN then 1 else 0)
               && t.ctl.waiting == s.ctl.waiting - (if w.pc == LEAVE then 1 else 0)
  {
    hide BreakerSpec.Tripped;
  }

  /** ... and in the counters. */
  lemma JobFiles(c: Setup, s: State, e: Event)
    requires Enabled(c, s, e) && (e.Land? || e.Work?)
    ensures var t, w := Next(c, s, e), s.jobs[e.job];
            && t.counts.completed == s.counts.completed + (if w.pc == COUNT then 1 else 0)
            && t.counts.samples == s.counts.samples + (if w.pc == SAMPLE then 1 else 0)
            && t.counts.classes == s.counts.classes + (if w.pc == CLASS then 1 else 0)
            && t.counts.success == s.counts.success + (if w.pc == VERDICT && w.ok then 1 else 0)
            && t.counts.failure == s.counts.failure + (if w.pc == VERDICT && !w.ok then 1 else 0)
            && t.counts.rows + t.counts.lost == s.counts.rows + s.counts.lost + (if w.pc == SINK then 1 else 0)
  {
    hide BreakerSpec.Tripped;
  }

  lemma CountedKeptByJob(c: Setup, s: State, e: Event)
    requires Counted(s) && Enabled(c, s, e) && (e.Land? || e.Work?)
    ensures Counted(Next(c, s, e))
  {
    JobMoves(c, s, e);
    JobFiles(c, s, e);
    var x := Next(c, s, e).jobs[e.job];
    hide Next, Enabled, Sum;
    SumUpdate(s.jobs, e.job, x, Past(COUNT));
    SumUpdate(s.jobs, e.job, x, Past(SAMPLE));
    SumUpdate(s.jobs, e.job, x, Past(CLASS));
    SumUpdate(s.jobs, e.job, x, Past(SINK));
  }

  lemma JudgedKeptByJob(c: Setup, s: State, e: Event)
    requires Judged(s) && Enabled(c, s, e) && (e.Land? || e.Work?)
    ensures Judged(Next(c, s, e))
  {
    JobMoves(c, s, e);
    JobFiles(c, s, e);
    var x := Next(c, s, e).jobs[e.job];
    hide Next, Enabled, Sum;
    SumUpdate(s.jobs, e.job, x, Verdicts(true));
    SumUpdate(s.jobs, e.job, x, Verdicts(false));
  }

  lemma SlottedKeptByJob(c: Setup, s: State, e: Event)
    requires Slotted(c, s) && Inlined(s) && Enabled(c, s, e) && (e.Land? || e.Work?)
    ensures Slotted(c, Next(c, s, e))
  {
    JobMoves(c, s, e);
    NotReturnedInline(c, s, e);
    var x := Next(c, s, e).jobs[e.job];
    hide Next, Enabled, Sum, Holding, InSequential, RateOnly;
    SumUpdate(s.jobs, e.job, x, Slots());
  }

  lemma AwaitedKeptByJob(c: Setup, s: State, e: Event)
    requires Awaited(s) && Inlined(s) && Enabled(c, s, e) && (e.Land? || e.Work?)
    ensures Awaited(Next(c, s, e))
  {
    JobMoves(c, s, e);
    NotReturnedInline(c, s, e);
    var x := Next(c, s, e).jobs[e.job];
    hide Next, Enabled, Sum;
    SumUpdate(s.jobs, e.job, x, Waits());
  }

  /** An inline attempt takes no step once it has returned. */
  lemma NotReturnedInline(c: Setup, s: State, e: Event)
    requires Enabled(c, s, e) && (e.Land? || e.Work?)
    ensures s.jobs[e.job].inline ==> s.jobs[e.job].pc < RETURN
  {
  }

  lemma InlinedKeptByJob(c: Setup, s: State, e: Event)
    requires Inlined(s) && Enabled(c, s, e) && (e.Land? || e.Work?)
    ensures Inlined(Next(c, s, e))
  {
    hide BreakerSpec.Tripped;
    var t := Next(c, s, e);
    assert forall j :: 0 <= j < |s.jobs| && j != e.job ==> t.jobs[j] == s.jobs[j];
  }

  lemma RestKeptByJob(c: Setup, s: State, e: Event)
    requires Enabled(c, s, e) && (e.Land? || e.Work?)
    requires Issued(s) && Budgeted(c, s) && Guarded(s)
    ensures var t := Next(c, s, e); Issued(t) && Budgeted(c, t) && Guarded(t)
  {
    hide BreakerSpec.Tripped, QuotaSpec.Available, LeavingStage;
  }

  lemma DrainedKeptByJob(c: Setup, s: State, e: Event)
    requires Enabled(c, s, e) && (e.Land? || e.Work?)
    requires Drained(s) && Awaited(s) && Inlined(s)
    ensures Drained(Next(c, s, e))
  {
    hide BreakerSpec.Tripped;
    if s.issuer.drained {
      NoneWaiting(s.jobs, e.job);
    }
  }

  /** Once nobody is waited for, no worker has a step left to take. */
  lemma NoneWaiting(jobs: seq<Job>, j: nat)
    requires Sum(jobs, Waits()) == 0 && j < |jobs|
    ensures jobs[j].inline || jobs[j].pc > LEAVE
  {
    SumAtLeastTerm(jobs, j, Waits());
  }

  // ----- the issuer keeps it

  lemma LaunchCounted(c: Setup, s: State)
    requires Counted(s) && Judged(s) && s.issuer.pc.Launch?
    ensures Counted(LaunchStep(c, s)) && Judged(LaunchStep(c, s))
  {
    hide InSequential;
    var x := Job(InSequential(c, s.issuer.stage), ATTEMPT, false, false, false);
    SumAppend(s.jobs, x, Past(COUNT));
    SumAppend(s.jobs, x, Past(SAMPLE));
    SumAppend(s.jobs, x, Past(CLASS));
    SumAppend(s.jobs, x, Past(SINK));
    SumAppend(s.jobs, x, Verdicts(true));
    SumAppend(s.jobs, x, Verdicts(false));
  }

  lemma NewJobHolds(jobs: seq<Job>, inline: bool)
    ensures var x := Job(inline, ATTEMPT, false, false, false);
            && Sum(jobs + [x], Slots()) == Sum(jobs, Slots()) + (if inline then 0 else 1)
            && Sum(jobs + [x], Waits()) == Sum(jobs, Waits()) + (if inline then 0 else 1)
  {
    var x := Job(inline, ATTEMPT, false, false, false);
    SumAppend(jobs, x, Slots());
    SumAppend(jobs, x, Waits());
  }

  lemma LaunchSlotted(c: Setup, s: State)
    requires Slotted(c, s) && Awaited(s) && s.issuer.pc.Launch?
    ensures Slotted(c, LaunchStep(c, s)) && Awaited(LaunchStep(c, s))
  {
    NewJobHolds(s.jobs, InSequential(c, s.issuer.stage));
    hide InSequential, Sum, Slots, Waits;
  }

  lemma LaunchRest(c: Setup, s: State)
    requires s.issuer.pc.Launch?
    requires Issued(s) && Inlined(s) && Budgeted(c, s) && Guarded(s) && Drained(s)
    ensures var t := LaunchStep(c, s); Issued(t) && Inlined(t) && Budgeted(c, t) && Guarded(t) && Drained(t)
  {
    hide QuotaSpec.Available, InSequential;
    assert forall j :: 0 <= j < |s.jobs| ==> LaunchStep(c, s).jobs[j] == s.jobs[j];
  }

  lemma PlanningKept(c: Setup, s: State, alt: bool)
    requires IssuerInv(c, s) && IssueEnabled(c, s, alt)
    requires s.issuer.pc.TopStopped? || s.issuer.pc.TopCancelled? || s.issuer.pc.PlanStage? || s.issuer.pc.NextStage?
    ensures IssuerInv(c, PlanningStep(c, s, alt)) && JobsUntouched(s, PlanningStep(c, s, alt))
  {
    hide QuotaSpec.Available, Planned, InSequential;
  }

  lemma CheckingKept(c: Setup, s: State, alt: bool)
    requires IssuerInv(c, s) && IssueEnabled(c, s, alt)
    requires s.issuer.pc.LoopTop? || s.issuer.pc.Sleep? || s.issuer.pc.StopCheck? || s.issuer.pc.CancelCheck?
             || s.issuer.pc.TakeSlot? || s.issuer.pc.AwaitSlot?
    ensures IssuerInv(c, CheckingStep(c, s, alt)) && JobsUntouched(s, CheckingStep(c, s, alt))
  {
    CheckingSlots(c, s, alt);
    CheckingRest(c, s, alt);
    hide Slotted, Issued, Inlined, Budgeted, Guarded, Drained, CheckingStep;
  }

  lemma CheckingSlots(c: Setup, s: State, alt: bool)
    requires Slotted(c, s) && IssueEnabled(c, s, alt)
    requires s.issuer.pc.LoopTop? || s.issuer.pc.Sleep? || s.issuer.pc.StopCheck? || s.issuer.pc.CancelCheck?
             || s.issuer.pc.TakeSlot? || s.issuer.pc.AwaitSlot?
    ensures Slotted(c, CheckingStep(c, s, alt))
  {
    hide InSequential, Sum;
  }

  lemma CheckingRest(c: Setup, s: State, alt: bool)
    requires Issued(s) && Inlined(s) && Budgeted(c, s) && Guarded(s) && Drained(s)
    requires s.issuer.pc.LoopTop? || s.issuer.pc.Sleep? || s.issuer.pc.StopCheck? || s.issuer.pc.CancelCheck?
             || s.issuer.pc.TakeSlot? || s.issuer.pc.AwaitSlot?
    ensures var t := CheckingStep(c, s, alt);
            Issued(t) && Inlined(t) && Budgeted(c, t) && Guarded(t) && Drained(t) && JobsUntouched(s, t)
  {
    hide QuotaSpec.Available, InSequential;
  }

  lemma TakingKept(c: Setup, s: State)
    requires IssuerInv(c, s)
    requires s.issuer.pc.ClosedCheck? || s.issuer.pc.LoadUsed? || s.issuer.pc.Swap? || s.issuer.pc.MarkSent?
    ensures IssuerInv(c, TakingStep(c, s)) && JobsUntouched(s, TakingStep(c, s))
  {
    hide InSequential;
  }

  lemma ReturningKept(c: Setup, s: State)
    requires IssuerInv(c, s) && IssueEnabled(c, s, false)
    requires s.issuer.pc.AwaitInline? || s.issuer.pc.Guard? || s.issuer.pc.FreeSlot? || s.issuer.pc.TruncGuard?
    ensures IssuerInv(c, ReturningStep(c, s)) && JobsUntouched(s, ReturningStep(c, s))
  {
    hide QuotaSpec.Available, InSequential;
  }

  lemma EndingKept(c: Setup, s: State)
    requires IssuerInv(c, s)
    requires s.issuer.pc.StageEnd? || s.issuer.pc.ErrorCheck? || s.issuer.pc.EndStopped? || s.issuer.pc.EndCancelled?
    ensures IssuerInv(c, EndingStep(s)) && JobsUntouched(s, EndingStep(s))
  {
    hide QuotaSpec.Available, InSequential;
  }

  lemma StoppingKept(c: Setup, s: State)
    requires IssuerInv(c, s) && (s.issuer.pc.CallStop? || s.issuer.pc.CallClose?)
    ensures IssuerInv(c, StoppingStep(s)) && JobsUntouched(s, StoppingStep(s))
  {
    hide QuotaSpec.Available, InSequential;
  }

  lemma FinishingKept(c: Setup, s: State, alt: bool)
    requires IssuerInv(c, s) && IssueEnabled(c, s, alt)
    requires s.issuer.pc.Drain? || s.issuer.pc.ReadReason? || s.issuer.pc.ReadCancel?
    ensures IssuerInv(c, FinishingStep(s, alt)) && JobsUntouched(s, FinishingStep(s, alt))
  {
    hide QuotaSpec.Available, InSequential;
  }

  lemma IssueKept(c: Setup, s: State, alt: bool)
    requires Inv(c, s) && IssueEnabled(c, s, alt)
    ensures Inv(c, IssueStep(c, s, alt))
  {
    if s.issuer.pc.Launch? {
      LaunchKept(c, s);
    } else {
      IssuerStepKept(c, s, alt);
      hide JobInv, IssuerInv, IssueStep;
      JobsUntouchedKeeps(s, IssueStep(c, s, alt));
    }
  }

  lemma IssuerStepKept(c: Setup, s: State, alt: bool)
    requires IssuerInv(c, s) && IssueEnabled(c, s, alt) && !s.issuer.pc.Launch?
    ensures IssuerInv(c, IssueStep(c, s, alt)) && JobsUntouched(s, IssueStep(c, s, alt))
  {
    hide IssuerInv, JobsUntouched;
    hide PlanningStep, CheckingStep, TakingStep, LaunchStep, ReturningStep, EndingStep, StoppingStep, FinishingStep;
    match s.issuer.pc
    case TopStopped | TopCancelled | PlanStage | NextStage => PlanningKept(c, s, alt);
    case LoopTop | Sleep | StopCheck | CancelCheck | TakeSlot | AwaitSlot => CheckingKept(c, s, alt);
    case ClosedCheck | LoadUsed | Swap | MarkSent => TakingKept(c, s);
    case AwaitInline | Guard | FreeSlot | TruncGuard => ReturningKept(c, s);
    case StageEnd | ErrorCheck | EndStopped | EndCancelled => EndingKept(c, s);
    case CallStop(_, _) => StoppingKept(c, s);
    case CallClose(_) => StoppingKept(c, s);
    case _ => FinishingKept(c, s, alt);
  }

  lemma LaunchKept(c: Setup, s: State)
    requires Inv(c, s) && s.issuer.pc.Launch?
    ensures Inv(c, LaunchStep(c, s))
  {
    LaunchCounted(c, s);
    LaunchSlotted(c, s);
    LaunchRest(c, s);
    hide Counted, Judged, Slotted, Awaited, Issued, Inlined, Budgeted, Guarded, Drained, LaunchStep;
  }

  lemma OtherKept(c: Setup, s: State, e: Event)
    requires Inv(c, s) && Enabled(c, s, e) && (e.Cancel? || e.PrimeAuth?)
    ensures Inv(c, Next(c, s, e))
  {
    hide QuotaSpec.Available;
  }

  lemma StepKeepsInv(c: Setup, s: State, e: Event)
    requires Inv(c, s) && Enabled(c, s, e)
    ensures Inv(c, Next(c, s, e))
  {
    hide Inv, IssueStep, WorkStep;
    match e
    case Issue(alt) =>
      IssueKept(c, s, alt);
    case Cancel =>
      OtherKept(c, s, e);
    case PrimeAuth(_) =>
      OtherKept(c, s, e);
    case _ =>
      JobKept(c, s, e);
  }

  lemma JobKept(c: Setup, s: State, e: Event)
    requires Inv(c, s) && Enabled(c, s, e) && (e.Land? || e.Work?)
    ensures Inv(c, Next(c, s, e))
  {
    hide Counted, Judged, Slotted, Awaited, Issued, Inlined, Budgeted, Guarded, Drained, Next;
    CountedKeptByJob(c, s, e);
    JudgedKeptByJob(c, s, e);
    SlottedKeptByJob(c, s, e);
    AwaitedKeptByJob(c, s, e);
    InlinedKeptByJob(c, s, e);
    RestKeptByJob(c, s, e);
    DrainedKeptByJob(c, s, e);
  }

  lemma InitialJobs(s: State)
    requires Initial(s)
    ensures JobInv(s) && Sum(s.jobs, Slots()) == 0
  {
    SumZero(s.jobs, Past(COUNT));
    SumZero(s.jobs, Past(SAMPLE));
    SumZero(s.jobs, Past(CLASS));
    SumZero(s.jobs, Past(SINK));
    SumZero(s.jobs, Verdicts(true));
    SumZero(s.jobs, Verdicts(false));
    SumZero(s.jobs, Slots());
    SumZero(s.jobs, Waits());
    hide Sum, Past, Verdicts, Slots, Waits;
  }

  lemma InitialInv(c: Setup, s: State)
    requires Initial(s) && c.maxConcurrency >= 1
    ensures Inv(c, s)
  {
    InitialJobs(s);
    hide JobInv;
  }

  lemma {:induction false} RunKeepsInv(c: Setup, s: State, events: seq<Event>, t: State)
    requires Inv(c, s) && Executes(c, s, events, t)
    ensures Inv(c, t)
    decreases |events|
  {
    if events != [] {
      StepKeepsInv(c, s, events[0]);
      RunKeepsInv(c, Next(c, s, events[0]), events[1..], t);
    }
  }

  // ----- main results

  /** At every moment of every run: quota is ahead of the sent counter by at
      most the one unit being marked, within the budget and the cap; rate
      workers hold at most the configured slots; one more request may be in
      flight, and no more; and nothing is filed that was not sent. */
  lemma AccountingAlways(c: Setup, s: State, events: seq<Event>, t: State)
    requires c.maxConcurrency >= 1 && Initial(s) && Executes(c, s, events, t)
    ensures 0 <= t.ctl.used - t.counts.sent <= 1
    ensures t.ctl.used <= Max(c.budget, 0) && (c.hardCap > 0 ==> t.ctl.used <= c.hardCap)
    ensures Sum(t.jobs, Slots()) <= c.maxConcurrency
    ensures Sum(t.jobs, InFlight()) <= c.maxConcurrency + 1
    ensures t.counts.success + t.counts.failure <= t.counts.classes <= t.counts.samples <= t.counts.completed
    ensures t.counts.completed <= t.counts.sent && t.counts.guards <= 1
  {
    InitialInv(c, s);
    RunKeepsInv(c, s, events, t);
    InFlightBound(t.jobs);
    CountsOrdered(t.jobs);
  }

  lemma InFlightBound(jobs: seq<Job>)
    requires forall j :: 0 <= j < |jobs| && jobs[j].inline && jobs[j].pc < RETURN ==> j == |jobs| - 1
    ensures Sum(jobs, InFlight()) <= Sum(jobs, Slots()) + 1
  {
    if jobs != [] {
      SumMonotone(jobs[..|jobs| - 1], InFlight(), Slots());
    }
  }

  function Verdict(): Job -> int {
    (j: Job) => if j.pc > VERDICT then 1 else 0
  }

  lemma CountsOrdered(jobs: seq<Job>)
    ensures Sum(jobs, Verdicts(true)) + Sum(jobs, Verdicts(false)) <= Sum(jobs, Past(CLASS))
    ensures Sum(jobs, Past(CLASS)) <= Sum(jobs, Past(SAMPLE)) <= Sum(jobs, Past(COUNT)) <= |jobs|
  {
    SumAdd(jobs, Verdicts(true), Verdicts(false), Verdict());
    SumMonotone(jobs, Verdict(), Past(CLASS));
    SumMonotone(jobs, Past(CLASS), Past(SAMPLE));
    SumMonotone(jobs, Past(SAMPLE), Past(COUNT));
    SumAtMostLength(jobs, Past(COUNT));
  }

  /** When the drain succeeded, every unit of quota is accounted for in every
      place it belongs, in every interleaving; the audit file holds one row per
      unit that could be written, plus at most one quota-guard row. */
  lemma AccountedAfterDrain(c: Setup, s: State, events: seq<Event>, t: State)
    requires c.maxConcurrency >= 1 && Initial(s) && Executes(c, s, events, t)
    requires t.issuer.pc == Done && t.issuer.drained
    ensures t.outcome.quotaUsed == t.ctl.used == t.counts.sent == t.counts.completed
    ensures t.counts.completed == t.counts.success + t.counts.failure == t.counts.classes == t.counts.samples
    ensures t.counts.rows + t.counts.lost == t.ctl.used && t.counts.guards <= 1
    ensures t.counts.success == Sum(t.jobs, Succeeded()) && t.counts.failure == Sum(t.jobs, Failed())
    ensures t.ctl.slots == 0
  {
    InitialInv(c, s);
    RunKeepsInv(c, s, events, t);
    AllFiled(t.jobs);
    AllJudged(t.jobs);
  }

  function Succeeded(): Job -> int {
    (j: Job) => if j.ok then 1 else 0
  }

  function Failed(): Job -> int {
    (j: Job) => if j.ok then 0 else 1
  }

  lemma AllJudged(jobs: seq<Job>)
    requires Sum(jobs, Past(SINK)) == |jobs|
    ensures Sum(jobs, Verdicts(true)) == Sum(jobs, Succeeded()) && Sum(jobs, Verdicts(false)) == Sum(jobs, Failed())
  {
    AllPast(jobs, SINK);
    SumCongruent(jobs, Verdicts(true), Succeeded());
    SumCongruent(jobs, Verdicts(false), Failed());
  }

  lemma {:induction false} AllPast(jobs: seq<Job>, step: nat)
    requires Sum(jobs, Past(step)) == |jobs|
    ensures forall j :: 0 <= j < |jobs| ==> jobs[j].pc > step
  {
    if jobs != [] {
      SumAtMostLength(jobs[..|jobs| - 1], Past(step));
      AllPast(jobs[..|jobs| - 1], step);
    }
  }

  lemma AllFiled(jobs: seq<Job>)
    requires Sum(jobs, Waits()) == 0
    requires forall j :: 0 <= j < |jobs| && jobs[j].inline ==> jobs[j].pc == RETURN
    ensures Sum(jobs, Past(COUNT)) == Sum(jobs, Past(SAMPLE)) == Sum(jobs, Past(CLASS)) == Sum(jobs, Past(SINK)) == |jobs|
    ensures Sum(jobs, Verdicts(true)) + Sum(jobs, Verdicts(false)) == |jobs|
    ensures Sum(jobs, Slots()) == 0
  {
    forall j | 0 <= j < |jobs| ensures jobs[j].pc >= RETURN && (jobs[j].inline || jobs[j].pc > LEAVE) {
      NoneWaiting(jobs, j);
    }
    SumOnes(jobs, Past(COUNT));
    SumOnes(jobs, Past(SAMPLE));
    SumOnes(jobs, Past(CLASS));
    SumOnes(jobs, Past(SINK));
    SumOnes(jobs, Verdict());
    SumAdd(jobs, Verdicts(true), Verdicts(false), Verdict());
    SumMonotone(jobs, Slots(), Waits());
    SumNonNegative(jobs, Slots());
  }
}
