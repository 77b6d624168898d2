/** Ways through the run engine: what its steps can do one after another.
 */
module RunPaths {
  import opened Common
  import opened Profile
  import opened RunEngine
  import QuotaSpec

  /** Some run leads from s to t. */
  ghost predicate Leads(c: Setup, s: State, t: State) {
    exists events :: Executes(c, s, events, t)
  }

  lemma {:induction false} ExecutesConcat(c: Setup, s: State, a: seq<Event>, t: State, b: seq<Event>, u: State)
    requires Executes(c, s, a, t) && Executes(c, t, b, u)
    ensures Executes(c, s, a + b, u)
    decreases |a|
  {
    hide Enabled, Next;
    if a == [] {
      assert a + b == b;
    } else {
      assert (a + b)[0] == a[0] && (a + b)[1..] == a[1..] + b;
      ExecutesConcat(c, Next(c, s, a[0]), a[1..], t, b, u);
    }
  }

  lemma LeadsOn(c: Setup, s: State, t: State, u: State)
    requires Leads(c, s, t) && Leads(c, t, u)
    ensures Leads(c, s, u)
  {
    var a, b :| Executes(c, s, a, t) && Executes(c, t, b, u);
    ExecutesConcat(c, s, a, t, b, u);
  }

  lemma Stays(c: Setup, s: State)
    ensures Leads(c, s, s)
  {
    assert Executes(c, s, [], s);
  }

  lemma StepLeads(c: Setup, s: State, e: Event)
    requires Enabled(c, s, e)
    ensures Leads(c, s, Next(c, s, e))
  {
    hide Enabled, Next;
    assert [e][1..] == [];
    assert Executes(c, s, [e], Next(c, s, e));
  }

  /** Each state of the path is one issuer step from the one before. */
  ghost predicate Path(c: Setup, path: seq<State>) {
    forall i :: 0 <= i < |path| - 1 ==> IssueEnabled(c, path[i], false) && IssueStep(c, path[i], false) == path[i + 1]
  }

  lemma {:induction false} PathLeads(c: Setup, path: seq<State>)
    requires path != [] && Path(c, path)
    ensures Leads(c, path[0], path[|path| - 1])
    decreases |path|
  {
    if |path| == 1 {
      Stays(c, path[0]);
    } else {
      PathStep(c, path);
      hide Leads, IssueEnabled, IssueStep;
      PathLeads(c, path[1..]);
      LeadsOn(c, path[0], path[1], path[|path| - 1]);
    }
  }

  lemma PathStep(c: Setup, path: seq<State>)
    requires |path| > 1 && Path(c, path)
    ensures Leads(c, path[0], path[1])
  {
    hide IssueEnabled, IssueStep;
    assert Next(c, path[0], Issue(false)) == path[1];
    StepLeads(c, path[0], Issue(false));
  }

  // ----- what the issuer does while nothing disturbs it

  ghost predicate Undisturbed(s: State) {
    !s.ctl.stopped && !s.ctl.closed && !s.ctl.cancelled
  }

  /** A stage that fits is planned in full. */
  lemma Plans(c: Setup, s: State)
    requires Undisturbed(s) && s.issuer.pc == TopStopped && s.issuer.stage < |c.stages|
    requires var stage := c.stages[s.issuer.stage];
             0 < Planned(stage) <= c.budget - s.ctl.used && (stage.mode != Sequential ==> stage.tps > 0.0)
    ensures Leads(c, s, s.(issuer := s.issuer.(
              pc := LoopTop, k := 0, planned := Planned(c.stages[s.issuer.stage]), truncated := false)))
  {
    hide Planned;
    var t := s.(issuer := s.issuer.(
      pc := LoopTop, k := 0, planned := Planned(c.stages[s.issuer.stage]), truncated := false));
    PathLeads(c, [s, Goto(s, TopCancelled), Goto(s, PlanStage), t]);
  }

  /** A rate stage with a free slot reaches the quota. */
  lemma Checks(c: Setup, s: State)
    requires Undisturbed(s) && s.issuer.pc == LoopTop && s.issuer.k < s.issuer.planned
    requires !InSequential(c, s.issuer.stage) && s.ctl.slots < c.maxConcurrency
    ensures Leads(c, s, Goto(s, ClosedCheck).(ctl := s.ctl.(slots := s.ctl.slots + 1)))
  {
    hide PlanningStep, TakingStep, LaunchStep, ReturningStep, EndingStep, StoppingStep, FinishingStep, Leads, InSequential;
    PathLeads(c, [s, Goto(s, Sleep), Goto(s, StopCheck), Goto(s, CancelCheck)]);
    var t := Goto(s, CancelCheck);
    PathLeads(c, [t, Goto(s, TakeSlot), Goto(s, ClosedCheck).(ctl := s.ctl.(slots := s.ctl.slots + 1))]);
    LeadsOn(c, s, t, Goto(s, ClosedCheck).(ctl := s.ctl.(slots := s.ctl.slots + 1)));
  }

  /** A sequential stage asks for no slot. */
  lemma ChecksInline(c: Setup, s: State)
    requires Undisturbed(s) && s.issuer.pc == LoopTop && s.issuer.k < s.issuer.planned
    requires InSequential(c, s.issuer.stage)
    ensures Leads(c, s, Goto(s, ClosedCheck))
  {
    hide InSequential;
    PathLeads(c, [s, Goto(s, StopCheck), Goto(s, ClosedCheck)]);
  }

  /** The state once one more request is in the air. */
  ghost function Launched(c: Setup, s: State): State {
    LaunchStep(c, s.(
      issuer := s.issuer.(pc := Launch, cur := s.ctl.used),
      ctl := s.ctl.(used := s.ctl.used + 1),
      counts := s.counts.(sent := s.counts.sent + 1)))
  }

  lemma Takes(c: Setup, s: State)
    requires Undisturbed(s) && s.issuer.pc == ClosedCheck && QuotaSpec.Available(s.ctl.used, c.budget, c.hardCap)
    ensures Leads(c, s, Launched(c, s))
  {
    hide InSequential, LaunchStep, QuotaSpec.Available;
    var s2 := s.(issuer := s.issuer.(pc := Swap, cur := s.ctl.used));
    PathLeads(c, [s, Goto(s, LoadUsed), s2]);
    Sends(c, s2);
    LeadsOn(c, s, s2, Launched(c, s));
  }

  lemma Sends(c: Setup, s: State)
    requires Undisturbed(s) && s.issuer.pc == Swap && s.issuer.cur == s.ctl.used
    ensures Leads(c, s, Launched(c, s))
  {
    hide InSequential, LaunchStep, QuotaSpec.Available;
    var s3 := Goto(s, MarkSent).(ctl := s.ctl.(used := s.ctl.used + 1));
    var s4 := Goto(s3, Launch).(counts := s.counts.(sent := s.counts.sent + 1));
    PathLeads(c, [s, s3, s4]);
    PathLeads(c, [s4, Launched(c, s)]);
    LeadsOn(c, s, s4, Launched(c, s));
  }

  /** A stage issued in full hands over to the next. */
  lemma Ends(c: Setup, s: State)
    requires Undisturbed(s) && s.issuer.pc == LoopTop && s.issuer.k >= s.issuer.planned
    requires !s.issuer.truncated && s.issuer.err == NoError
    ensures Leads(c, s, s.(issuer := s.issuer.(pc := TopStopped, stage := s.issuer.stage + 1)))
  {
    hide PlanningStep, TakingStep, LaunchStep, ReturningStep, StoppingStep, FinishingStep, Leads, Planned, InSequential;
    var t := s.(issuer := s.issuer.(pc := TopStopped, stage := s.issuer.stage + 1));
    PathLeads(c, [s, Goto(s, StageEnd), Goto(s, ErrorCheck)]);
    GoesOn(c, Goto(s, ErrorCheck));
    LeadsOn(c, s, Goto(s, ErrorCheck), t);
  }

  lemma GoesOn(c: Setup, s: State)
    requires Undisturbed(s) && s.issuer.pc == ErrorCheck && s.issuer.err == NoError
    ensures Leads(c, s, s.(issuer := s.issuer.(pc := TopStopped, stage := s.issuer.stage + 1)))
  {
    hide PlanningStep, CheckingStep, TakingStep, LaunchStep, ReturningStep, StoppingStep, FinishingStep, Leads;
    var t := s.(issuer := s.issuer.(pc := TopStopped, stage := s.issuer.stage + 1));
    PathLeads(c, [s, Goto(s, EndStopped), Goto(s, EndCancelled)]);
    MovesOn(c, Goto(s, EndCancelled));
    LeadsOn(c, s, Goto(s, EndCancelled), t);
  }

  lemma MovesOn(c: Setup, s: State)
    requires Undisturbed(s) && s.issuer.pc == EndCancelled
    ensures Leads(c, s, s.(issuer := s.issuer.(pc := TopStopped, stage := s.issuer.stage + 1)))
  {
    PathLeads(c, [s, Goto(s, NextStage), s.(issuer := s.issuer.(pc := TopStopped, stage := s.issuer.stage + 1))]);
  }
}
