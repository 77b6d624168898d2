/** Load profiles and the budget arithmetic that decides, before a single
    request is sent, whether a profile may run.
 */
module Profile {
  import opened Common

  datatype Mode = Sequential | Rate | Unknown

  /** Nanoseconds for duration; tps is an exact rate. */
  datatype Stage = Stage(name: string, mode: Mode, count: int, tps: real, duration: int)

  datatype Profile = Profile(name: string, stages: seq<Stage>, reserve: int)

  datatype Limits = Limits(hardCap: int, maxRequests: int)

  datatype Verdict = Accepted | Rejected(reason: string)

  datatype Budgeted = Budget(value: int) | Refused(reason: string)

  const SECOND: real := 1000000000.0

  /** Go's conversion of a float to an integer, which drops the fraction. */
  function Truncate(x: real): int {
    if x >= 0.0 then x.Floor else -(-x).Floor
  }

  function Planned(s: Stage): int {
    if s.mode == Sequential then s.count
    else Truncate(s.tps * (s.duration as real / SECOND))
  }

  function SumPlanned(stages: seq<Stage>): int {
    if stages == [] then 0 else SumPlanned(stages[..|stages| - 1]) + Planned(stages[|stages| - 1])
  }

  predicate ValidStage(s: Stage) {
    match s.mode
    case Sequential => s.count >= 1 && s.tps == 0.0 && s.duration == 0
    case Rate => s.tps > 0.0 && s.duration > 0 && s.count == 0 && Planned(s) >= 1
    case Unknown => false
  }

  ghost predicate Valid(p: Profile) {
    && !Blank(p.name) && p.stages != [] && p.reserve >= 0
    && (forall i :: 0 <= i < |p.stages| ==> !Blank(p.stages[i].name) && ValidStage(p.stages[i]))
    && (forall i, j :: 0 <= i < j < |p.stages| ==> p.stages[i].name != p.stages[j].name)
  }

  /** What the configuration checks demand of the limits. */
  predicate ValidLimits(l: Limits) {
    l.hardCap >= 1 && 0 <= l.maxRequests <= l.hardCap
  }

  /** What the stages ask for, in requests times nanoseconds a second: the count
      of a sequential stage, the rate times the duration of the others. */
  function Demand(stages: seq<Stage>): real {
    if stages == [] then 0.0
    else
      var s := stages[|stages| - 1];
      Demand(stages[..|stages| - 1])
      + if s.mode == Sequential then s.count as real * 1000000000.0 else s.tps * s.duration as real
  }

  /** A stage plans its count, or as many whole requests as its rate yields in
      its duration: never one more, and less than one fewer. */
  lemma PlannedExactly(s: Stage)
    requires ValidStage(s)
    ensures s.mode == Sequential ==> Planned(s) == s.count
    ensures s.mode == Rate ==>
              Planned(s) as real * 1000000000.0 <= s.tps * s.duration as real < (Planned(s) + 1) as real * 1000000000.0
  {
    if s.mode == Rate {
      TimesSecond(s.tps, s.duration as real);
      Positive(s.tps, s.duration as real / SECOND);
    }
  }

  lemma TimesSecond(tps: real, duration: real)
    ensures tps * (duration / SECOND) * 1000000000.0 == tps * duration
  {
    assert duration / SECOND * 1000000000.0 == duration;
  }

  lemma Positive(x: real, y: real)
    requires x > 0.0 && y > 0.0
    ensures x * y > 0.0
  {
  }

  /** What a profile plans falls short of what its stages ask for by less than one
      request a stage. */
  lemma {:induction false} PlanMeetsDemand(stages: seq<Stage>)
    requires forall i :: 0 <= i < |stages| ==> ValidStage(stages[i])
    ensures SumPlanned(stages) as real * 1000000000.0 <= Demand(stages)
    ensures Demand(stages) <= (SumPlanned(stages) + |stages|) as real * 1000000000.0
  {
    if stages != [] {
      PlanMeetsDemand(stages[..|stages| - 1]);
      PlannedExactly(stages[|stages| - 1]);
      hide Planned;
    }
  }

  method TotalPlanned(p: Profile) returns (total: int)
    ensures total == SumPlanned(p.stages)
    ensures (forall i :: 0 <= i < |p.stages| ==> ValidStage(p.stages[i])) ==>
              total as real * 1000000000.0 <= Demand(p.stages) <= (total + |p.stages|) as real * 1000000000.0
  {
    if forall i :: 0 <= i < |p.stages| ==> ValidStage(p.stages[i]) {
      PlanMeetsDemand(p.stages);
    }
    total := 0;
    for i := 0 to |p.stages|
      invariant total == SumPlanned(p.stages[..i])
    {
      assert p.stages[..i + 1][..i] == p.stages[..i];
      total := total + Planned(p.stages[i]);
    }
    assert p.stages[..|p.stages|] == p.stages;
  }

  /** Validate accepts exactly the valid profiles. */
  method Validate(p: Profile) returns (v: Verdict)
    ensures v == Accepted <==> Valid(p)
  {
    if Blank(p.name) {
      return Rejected("profile name must not be empty");
    }
    if |p.stages| == 0 {
      return Rejected("profile defines no stages");
    }
    var seen: set<string> := {};
    for i := 0 to |p.stages|
      invariant forall j :: 0 <= j < i ==> !Blank(p.stages[j].name) && ValidStage(p.stages[j])
      invariant forall j, k :: 0 <= j < k < i ==> p.stages[j].name != p.stages[k].name
      invariant seen == set j | 0 <= j < i :: p.stages[j].name
    {
      var s := p.stages[i];
      if Blank(s.name) {
        return Rejected("stage has no name");
      }
      if s.name in seen {
        return Rejected("duplicate stage name");
      }
      seen := seen + {s.name};
      match s.mode {
        case Sequential =>
          if s.count < 1 {
            return Rejected("sequential mode requires count >= 1");
          }
          if s.tps != 0.0 || s.duration != 0 {
            return Rejected("sequential mode must not set tps or duration");
          }
        case Rate =>
          if s.tps <= 0.0 {
            return Rejected("rate mode requires tps > 0");
          }
          if s.duration <= 0 {
            return Rejected("rate mode requires a positive duration");
          }
          if s.count != 0 {
            return Rejected("rate mode must not set count");
          }
          if Planned(s) < 1 {
            return Rejected("stage plans 0 requests; raise tps or duration");
          }
        case Unknown =>
          return Rejected("mode must be sequential or rate");
      }
    }
    if p.reserve < 0 {
      return Rejected("reserve must not be negative");
    }
    return Accepted;
  }

  function CheckAgainstQuota(p: Profile, maxRequests: int, hardCap: int): Verdict {
    var planned := SumPlanned(p.stages);
    if planned > maxRequests then
      Rejected("profile plans more than --max-requests")
    else if planned > hardCap then
      Rejected("profile plans more than the hard cap")
    else if p.reserve > 0 && planned + p.reserve > hardCap then
      Rejected("profile plus reserve exceeds the hard cap")
    else
      Accepted
  }

  /** How many timestamps a run may spend; requested 0 takes what the
      configuration allows. */
  function BudgetFor(l: Limits, requested: int): Budgeted {
    if requested <= 0 then
      if l.maxRequests > 0 then Budget(l.maxRequests) else Budget(l.hardCap)
    else if l.hardCap > 0 && requested > l.hardCap then
      Refused("--max-requests exceeds the configured hard cap")
    else if l.maxRequests > 0 && requested > l.maxRequests then
      Refused("--max-requests exceeds limits.max_requests")
    else
      Budget(requested)
  }

  /** The decision of the validate command: no --max-requests given. */
  predicate ValidateAccepts(l: Limits, p: Profile) {
    BudgetFor(l, 0).Budget? && CheckAgainstQuota(p, BudgetFor(l, 0).value, l.hardCap).Accepted?
  }

  /** The decision of the run command. */
  predicate RunAccepts(l: Limits, p: Profile, requested: int) {
    BudgetFor(l, requested).Budget? && CheckAgainstQuota(p, BudgetFor(l, requested).value, l.hardCap).Accepted?
  }

  /** The ceiling validate checks a profile against. */
  function Ceiling(l: Limits): int {
    if l.maxRequests > 0 then l.maxRequests else l.hardCap
  }

  // ----- properties

  /** Every stage of a valid profile sends something, so the plan is at least
      one request a stage. */
  lemma {:induction false} PlanCoversStages(stages: seq<Stage>)
    requires forall i :: 0 <= i < |stages| ==> ValidStage(stages[i])
    ensures SumPlanned(stages) >= |stages|
    ensures forall i :: 0 <= i < |stages| ==> Planned(stages[i]) >= 1
  {
    if stages != [] {
      PlanCoversStages(stages[..|stages| - 1]);
    }
  }

  /** A valid configuration always yields a usable budget within the cap, and
      refuses exactly the requests above either limit; with none requested it
      yields the largest that could have been. */
  lemma BudgetWithinLimits(l: Limits, requested: int)
    requires ValidLimits(l)
    ensures BudgetFor(l, requested).Refused? <==> requested > Ceiling(l)
    ensures BudgetFor(l, requested).Budget? ==>
              && 1 <= BudgetFor(l, requested).value <= Ceiling(l) <= l.hardCap
              && (requested > 0 ==> BudgetFor(l, requested).value == requested)
    ensures BudgetFor(l, requested).Refused? <==>
              requested > l.hardCap || (l.maxRequests > 0 && requested > l.maxRequests)
    ensures requested <= 0 ==>
              && BudgetFor(l, requested).Budget?
              && BudgetFor(l, BudgetFor(l, requested).value).Budget?
              && BudgetFor(l, BudgetFor(l, requested).value + 1).Refused?
  {
  }

  /** A profile validate accepts is rejected by run unless the operator asked
      for at least what it plans, and for no more than the ceiling. */
  lemma ValidatedProfileRuns(l: Limits, p: Profile, requested: int)
    requires ValidLimits(l) && requested > 0
    requires ValidateAccepts(l, p)
    ensures RunAccepts(l, p, requested) <==> SumPlanned(p.stages) <= requested <= Ceiling(l)
  {
  }

  /** Both commands agree when run is left to the configuration. */
  lemma ValidateIsRunByDefault(l: Limits, p: Profile, requested: int)
    requires requested <= 0
    ensures RunAccepts(l, p, requested) <==> ValidateAccepts(l, p)
  {
  }

  /** validate accepts this two-request profile; run with one request does not. */
  lemma ValidatedButRejectedExample()
    ensures var l := Limits(10, 0);
            var p := Profile("p", [Stage("s", Sequential, 2, 0.0, 0)], 0);
            ValidLimits(l) && Valid(p) && ValidateAccepts(l, p) && !RunAccepts(l, p, 1)
  {
    var stages := [Stage("s", Sequential, 2, 0.0, 0)];
    assert stages[..0] == [];
    assert SumPlanned(stages) == 2;
    assert !IsSpace("p"[0]) && !IsSpace("s"[0]);
  }

  /** What run accepts fits its budget with the reserve to spare. */
  lemma AcceptedFits(l: Limits, p: Profile, requested: int)
    requires ValidLimits(l) && Valid(p) && RunAccepts(l, p, requested)
    ensures 1 <= SumPlanned(p.stages) <= BudgetFor(l, requested).value <= l.hardCap
    ensures SumPlanned(p.stages) + p.reserve <= l.hardCap
  {
    PlanCoversStages(p.stages);
  }

  /** A profile is accepted exactly when what it plans is within the limit, and
      within the cap together with the reserve it holds back. */
  lemma CheckedExactly(p: Profile, maxRequests: int, hardCap: int)
    ensures CheckAgainstQuota(p, maxRequests, hardCap).Accepted? <==>
            SumPlanned(p.stages) <= maxRequests && SumPlanned(p.stages) + Max(p.reserve, 0) <= hardCap
  {
  }

  /** The profile of a 50,000-timestamp engagement. */
  const ENGAGEMENT := Profile("50k", ENGAGEMENT_STAGES, 1400)

  const ENGAGEMENT_STAGES: seq<Stage> := [
    Stage("functional", Sequential, 100, 0.0, 0),
    Stage("ramp-25", Rate, 0, 25.0, 20_000_000_000),
    Stage("ramp-50", Rate, 0, 50.0, 20_000_000_000),
    Stage("ramp-100", Rate, 0, 100.0, 20_000_000_000),
    Stage("sustained-150", Rate, 0, 150.0, 300_000_000_000)]

  /** It plans 48,600 and with its reserve fits a cap of 50,000 exactly. */
  lemma EngagementFitsExactly(hardCap: int)
    ensures SumPlanned(ENGAGEMENT.stages) == 48_600
    ensures CheckAgainstQuota(ENGAGEMENT, hardCap, hardCap).Accepted? <==> hardCap >= 50_000
  {
    var s := ENGAGEMENT_STAGES;
    RatePlans(25.0, 20_000_000_000, 500);
    RatePlans(50.0, 20_000_000_000, 1000);
    RatePlans(100.0, 20_000_000_000, 2000);
    RatePlans(150.0, 300_000_000_000, 45_000);
    hide Truncate, SumPlanned, CheckAgainstQuota;
    NothingPlanned();
    OneStageMore(s, 0);
    OneStageMore(s, 1);
    OneStageMore(s, 2);
    OneStageMore(s, 3);
    OneStageMore(s, 4);
    assert s[..5] == s && s[..0] == [];
    CheckedExactly(ENGAGEMENT, hardCap, hardCap);
  }

  lemma NothingPlanned()
    ensures SumPlanned([]) == 0
  {
  }

  lemma OneStageMore(stages: seq<Stage>, k: nat)
    requires k < |stages|
    ensures SumPlanned(stages[..k + 1]) == SumPlanned(stages[..k]) + Planned(stages[k])
  {
    assert stages[..k + 1][..k] == stages[..k];
  }

  lemma RatePlans(tps: real, duration: int, n: nat)
    requires tps * duration as real == n as real * 1000000000.0
    ensures Truncate(tps * (duration as real / SECOND)) == n
  {
    TimesSecond(tps, duration as real);
  }
}
