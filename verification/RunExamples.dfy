/** Concrete profiles and runs that show where a claim about the engine ends.
 */
module RunExamples {
  import opened Common
  import opened Profile
  import opened RunEngine
  import opened RunPaths
  import RunAccepted
  import RunSlots
  import BreakerSpec
  import QuotaSpec

  /** A rate stage of one request, then a sequential one. */
  const TWO_STAGES := Profile(
    "warm up, then check",
    [Stage("rate", Rate, 0, 1.0, 1_000_000_000), Stage("sequential", Sequential, 1, 0.0, 0)], 0)

  /** One worker slot, and a breaker that trips on one failure. */
  function OneSlot(): Setup {
    Setup(TWO_STAGES.stages, 2, 2, 1, BreakerSpec.Settings(0.0, 1, 1))
  }

  lemma TwoStagesValid()
    ensures Valid(TWO_STAGES) && SumPlanned(TWO_STAGES.stages) == 2
    ensures Planned(TWO_STAGES.stages[0]) == Planned(TWO_STAGES.stages[1]) == 1
  {
    var a, b := TWO_STAGES.stages[0], TWO_STAGES.stages[1];
    assert a.tps * (a.duration as real / SECOND) == 1.0;
    assert Truncate(1.0) == 1;
    assert !IsSpace(TWO_STAGES.name[0]) && !IsSpace(a.name[0]) && !IsSpace(b.name[0]);
    assert |a.name| != |b.name|;
    assert TWO_STAGES.stages[..1] == [a] && [a][..0] == [];
  }

  /** With one slot, this valid profile can have two requests in flight: the rate
      stage's worker is still busy when the sequential stage, which takes no
      slot, issues its own. */
  lemma InFlightExceedsSlots()
    ensures Valid(TWO_STAGES) && RunAccepted.AcceptedSetup(OneSlot(), Limits(2, 0), TWO_STAGES, 2)
    ensures RunSlots.CanHaveInFlight(OneSlot(), OneSlot().maxConcurrency + 1)
  {
    TwoStagesValid();
    hide Valid, Planned, SumPlanned, RunSlots.CanHaveInFlight;
    assert RunSlots.RatePlanned(TWO_STAGES.stages, 1) == 1;
    assert RunSlots.Overflows(TWO_STAGES.stages, 1);
    RunSlots.InFlightExceedsSlotsExactly(OneSlot(), Limits(2, 0), TWO_STAGES, 2);
  }

  // ----- a run that blames the quota for an interruption

  /** Planning the first stage, cut down to the whole budget. */
  function Planning(c: Setup): State {
    State(
      Issuer(LoopTop, 0, 0, c.budget, true, NoError, 0, false),
      Control(false, false, None, false, 0, 0, 0, 0),
      Counts(0, 0, 0, 0, 0, 0, 0, 0, 0),
      [], [], Outcome(Completed, false, 0))
  }

  /** The signal has arrived and ended the stage. */
  function Cancelled(c: Setup): State {
    Planning(c).(issuer := Issuer(StageEnd, 0, 0, c.budget, true, Interrupted, 0, false),
                 ctl := Control(false, false, None, true, 0, 0, 0, 0))
  }

  /** The quota has been blamed and closed. */
  function Blamed(c: Setup): State {
    Cancelled(c).(issuer := Cancelled(c).issuer.(pc := TruncGuard),
                  ctl := Control(true, true, Some(QuotaExhausted), true, 0, 0, 0, 0))
  }

  lemma PlansCutDown(c: Setup, s: State)
    requires RunSlots.Started(s) && s == Planning(c).(issuer := Issuer(TopStopped, 0, 0, 0, false, NoError, 0, false))
    requires c.stages != [] && Planned(c.stages[0]) > c.budget >= 1
    requires c.stages[0].mode != Sequential ==> c.stages[0].tps > 0.0
    ensures Leads(c, s, Planning(c))
  {
    hide Planned, Leads, CheckingStep, TakingStep, LaunchStep, ReturningStep, EndingStep, StoppingStep, FinishingStep;
    PathLeads(c, [s, Goto(s, TopCancelled), Goto(s, PlanStage), Planning(c)]);
  }

  lemma IsInterrupted(c: Setup)
    requires c.budget >= 1
    ensures Leads(c, Planning(c), Cancelled(c))
  {
    hide Leads, PlanningStep, TakingStep, LaunchStep, ReturningStep, EndingStep, StoppingStep, FinishingStep;
    var m := Planning(c).(ctl := Control(false, false, None, true, 0, 0, 0, 0));
    StepLeads(c, Planning(c), Cancel);
    PathLeads(c, [m, Cancelled(c)]);
    LeadsOn(c, Planning(c), m, Cancelled(c));
  }

  lemma BlamesQuota(c: Setup)
    ensures Leads(c, Cancelled(c), Blamed(c))
  {
    hide Leads, PlanningStep, CheckingStep, TakingStep, LaunchStep, ReturningStep, FinishingStep;
    var s := Cancelled(c);
    var t := Goto(s, CallClose(TruncGuarding)).(ctl := Control(true, false, Some(QuotaExhausted), true, 0, 0, 0, 0));
    PathLeads(c, [s, Goto(s, CallStop(QuotaExhausted, TruncGuarding)), t, Blamed(c)]);
  }

  lemma GoesHome(c: Setup) returns (t: State)
    ensures Leads(c, Blamed(c), t) && t.issuer.pc == Done && t.ctl == Blamed(c).ctl
    ensures t.outcome == Outcome(QuotaExhausted, true, 0)
  {
    hide Leads, PlanningStep, CheckingStep, TakingStep, LaunchStep, StoppingStep;
    var s := Blamed(c);
    var a := Goto(s, ErrorCheck).(counts := s.counts.(guards := 1));
    var d := Goto(a, Drain);
    PathLeads(c, [s, a, Goto(a, EndStopped), d]);
    t := Reports(c, d);
    LeadsOn(c, s, d, t);
  }

  lemma Reports(c: Setup, d: State) returns (t: State)
    requires d.issuer.pc == Drain && d.ctl == Blamed(c).ctl
    ensures Leads(c, d, t) && t.issuer.pc == Done && t.ctl == d.ctl && t.outcome == Outcome(QuotaExhausted, true, 0)
  {
    hide Leads, PlanningStep, CheckingStep, TakingStep, LaunchStep, ReturningStep, EndingStep, StoppingStep;
    var r := d.(issuer := d.issuer.(pc := ReadReason, drained := true));
    var u := Goto(r, ReadCancel).(outcome := Outcome(QuotaExhausted, false, 0));
    t := Goto(u, Done).(outcome := Outcome(QuotaExhausted, true, 0));
    PathLeads(c, [d, r, u, t]);
  }

  /** Whenever the first stage plans more than the budget, a run interrupted in
      it is reported as out of quota although it has sent nothing at all. */
  lemma QuotaBlamedExample(c: Setup)
    requires c.stages != [] && Planned(c.stages[0]) > c.budget >= 1
    requires c.stages[0].mode != Sequential ==> c.stages[0].tps > 0.0
    ensures exists s, events, t ::
              && Initial(s) && Executes(c, s, events, t) && t.issuer.pc == Done
              && t.outcome == Outcome(QuotaExhausted, true, 0) && t.ctl.used == 0 && t.ctl.cancelled
  {
    hide Executes, Initial, Planned;
    var s, started := RunSlots.Starts(c);
    PlansCutDown(c, started);
    IsInterrupted(c);
    BlamesQuota(c);
    var t := GoesHome(c);
    LeadsOn(c, s, started, Planning(c));
    LeadsOn(c, s, Planning(c), Cancelled(c));
    LeadsOn(c, s, Cancelled(c), Blamed(c));
    LeadsOn(c, s, Blamed(c), t);
    var events :| Executes(c, s, events, t);
  }
}
