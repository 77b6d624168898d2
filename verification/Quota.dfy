/** The budget of physical request attempts: one caller's view of Acquire under
    interference, and every interleaving of any number of callers.
 */
module QuotaSpec {

  datatype Grant = Granted(number: int) | Exhausted

  /** NewQuota's clamp. */
  function Clamped(budget: int, hardCap: int): (b: int)
    ensures hardCap > 0 ==> b <= hardCap
    ensures b <= budget
    ensures b == budget <==> !(hardCap > 0 && budget > hardCap)
  {
    if hardCap > 0 && budget > hardCap then hardCap else budget
  }

  /** Whether one more unit fits, as Acquire tests it. */
  predicate Available(used: int, budget: int, hardCap: int) {
    used < budget && !(hardCap > 0 && used >= hardCap)
  }

  /** The clamp makes the second test of Acquire redundant. */
  lemma ClampMakesCapRedundant(used: int, budget: int, hardCap: int)
    ensures Available(used, Clamped(budget, hardCap), hardCap) <==> used < Clamped(budget, hardCap)
  {
  }
}

module Quota {
  import opened Common
  import opened QuotaSpec

  class Quota {
    const budget: int
    const hardCap: int
    var used: int
    var closed: bool

    ghost predicate Valid()
      reads this
    {
      0 <= used <= Max(budget, 0) && (hardCap > 0 ==> budget <= hardCap)
    }

    constructor (budget: int, hardCap: int)
      ensures Valid() && used == 0 && !closed
      ensures this.budget == Clamped(budget, hardCap) && this.hardCap == hardCap
      ensures this.budget <= budget && (hardCap > 0 ==> this.budget <= hardCap)
      ensures this.budget != budget ==> this.budget == hardCap > 0
    {
      this.budget := Clamped(budget, hardCap);
      this.hardCap := hardCap;
      used := 0;
      closed := false;
    }

    function Remaining(): (r: int)
      requires Valid()
      reads this
      ensures 0 <= r && (budget >= 0 ==> used + r == budget)
    {
      var r := budget - used;
      if r < 0 then 0 else r
    }

    method Close()
      modifies this`closed
      ensures closed
    {
      closed := true;
    }

    /** Between two atomic operations of one caller, others may have been
        granted any number of units that fit, and may have closed the quota. */
    method Interference()
      requires Valid()
      modifies this`used, this`closed
      ensures Valid() && old(used) <= used && (old(closed) ==> closed)
    {
      var granted :| granted >= 0;
      if used + granted <= budget {
        used := used + granted;
      }
      var close: bool := *;
      closed := closed || close;
    }

    method CompareAndSwap(expected: int, desired: int) returns (swapped: bool)
      modifies this`used
      ensures swapped <==> old(used) == expected
      ensures used == if swapped then desired else old(used)
    {
      swapped := used == expected;
      if swapped {
        used := desired;
      }
    }

    /** Reserves exactly one attempt. At the instant of the reservation the unit
        granted is the one after those already used; failures of the swap are
        paid for by units granted to others meanwhile, so the loop ends. */
    method Acquire() returns (grant: Grant, ghost retries: nat)
      requires Valid()
      modifies this`used, this`closed
      ensures Valid() && old(used) <= used && (old(closed) ==> closed)
      ensures old(closed) ==> grant == Exhausted && used == old(used)
      ensures grant.Granted? ==> old(used) < grant.number == used <= budget
      ensures grant.Exhausted? && !old(closed) ==> used >= budget
      ensures grant.Granted? ==> retries <= used - old(used) - 1
      ensures grant.Exhausted? ==> retries <= used - old(used)
    {
      retries := 0;
      if closed {
        return Exhausted, 0;
      }
      while true
        invariant Valid() && old(used) <= used && (old(closed) ==> closed)
        invariant retries <= used - old(used)
        decreases budget - used
      {
        Interference();
        var cur := used;
        if cur >= budget {
          return Exhausted, retries;
        }
        if hardCap > 0 && cur >= hardCap {
          return Exhausted, retries;
        }
        Interference();
        var swapped := CompareAndSwap(cur, cur + 1);
        if swapped {
          return Granted(cur + 1), retries;
        }
        retries := retries + 1;
      }
    }
  }
}

module QuotaRace {
  import opened Common
  import opened Fold
  import opened QuotaSpec

  /** Where one Acquire call stands. */
  datatype Pc =
    | Entered             // about to read closed
    | Looping             // about to load used
    | Loaded(cur: int)    // about to compare and swap
    | Returned(grant: Grant)

  /** One Acquire call. afterClose: it began once the quota was closed. base is
      what used was when the loop was entered. */
  datatype Caller = Caller(pc: Pc, afterClose: bool, base: int, retries: nat)

  /** order is the log of grants: the caller each unit went to. */
  datatype State = State(
    budget: int, hardCap: int, used: int, closed: bool, callers: seq<Caller>, order: seq<nat>,
    late: nat, inLoopAtClose: nat)

  datatype Event = Enter | Close | Advance(caller: nat)

  ghost predicate Initial(s: State) {
    && (s.hardCap > 0 ==> s.budget <= s.hardCap)
    && s.used == 0 && !s.closed && s.callers == [] && s.order == []
    && s.late == 0 && s.inLoopAtClose == 0
  }

  predicate Enabled(s: State, e: Event) {
    match e
    case Enter => true
    case Close => true
    case Advance(k) => k < |s.callers| && !s.callers[k].pc.Returned?
  }

  /** late counts the units granted once the quota is closed. */
  function Next(s: State, e: Event): State
    requires Enabled(s, e)
  {
    match e
    case Enter => s.(callers := s.callers + [Caller(Entered, s.closed, 0, 0)])
    case Close =>
      if s.closed then s else s.(closed := true, inLoopAtClose := AsNat(Sum(s.callers, InLoop())))
    case Advance(k) =>
      var c := s.callers[k];
      match c.pc
      case Entered =>
        if s.closed then s.(callers := s.callers[k := c.(pc := Returned(Exhausted))])
        else s.(callers := s.callers[k := c.(pc := Looping, base := s.used)])
      case Looping =>
        if Available(s.used, s.budget, s.hardCap) then s.(callers := s.callers[k := c.(pc := Loaded(s.used))])
        else s.(callers := s.callers[k := c.(pc := Returned(Exhausted))])
      case Loaded(cur) =>
        if s.used == cur then
          s.(callers := s.callers[k := c.(pc := Returned(Granted(cur + 1)))],
             used := cur + 1, order := s.order + [k], late := if s.closed then s.late + 1 else s.late)
        else
          s.(callers := s.callers[k := c.(pc := Looping, retries := c.retries + 1)])
      case Returned(_) => s
  }

  function AsNat(x: int): nat {
    if x < 0 then 0 else x
  }

  ghost predicate Executes(s: State, events: seq<Event>, t: State)
    decreases |events|
  {
    if events == [] then s == t
    else Enabled(s, events[0]) && Executes(Next(s, events[0]), events[1..], t)
  }

  function InLoop(): Caller -> int {
    (c: Caller) => if c.pc.Looping? || c.pc.Loaded? then 1 else 0
  }

  // ----- the invariant

  /** Caller k was granted unit n. */
  predicate HoldsUnit(s: State, k: int, n: int) {
    0 <= k < |s.callers| && s.callers[k].pc == Returned(Granted(n))
  }

  /** Unit n went to exactly the caller the log names, for n = 1..used. */
  ghost predicate ExactlyOnce(s: State) {
    && |s.order| == s.used
    && (forall n :: 0 <= n < |s.order| ==> HoldsUnit(s, s.order[n], n + 1))
    && (forall k, n :: HoldsUnit(s, k, n) ==> 1 <= n <= s.used && s.order[n - 1] == k)
  }

  ghost predicate WithinBudget(s: State) {
    && 0 <= s.used <= Max(s.budget, 0)
    && (s.hardCap > 0 ==> s.budget <= s.hardCap)
    && (forall k :: 0 <= k < |s.callers| && s.callers[k].pc.Loaded? ==>
          s.callers[k].pc.cur <= s.used && s.callers[k].pc.cur < s.budget)
  }

  /** A failed swap was somebody else's successful one. */
  ghost predicate RetriesPaid(s: State) {
    forall k :: 0 <= k < |s.callers| ==>
      var c := s.callers[k];
      && (c.pc.Entered? ==> c.retries == 0)
      && (!c.pc.Entered? ==> c.retries <= Max(s.used - c.base, 0))
      && (c.pc.Looping? || c.pc.Loaded? ==> c.base <= s.used)
      && (c.pc.Loaded? ==> c.base <= c.pc.cur && c.retries <= c.pc.cur - c.base)
      && (forall n :: c.pc == Returned(Granted(n)) ==> c.base < n && c.retries <= n - 1 - c.base)
  }

  ghost predicate ClosedMeansClosed(s: State) {
    && (forall k :: 0 <= k < |s.callers| && s.callers[k].afterClose ==>
          s.closed && (s.callers[k].pc.Entered? || s.callers[k].pc == Returned(Exhausted)))
    && (!s.closed ==> s.late == 0)
    && (s.closed ==> s.late + Sum(s.callers, InLoop()) <= s.inLoopAtClose)
  }

  ghost predicate Inv(s: State) {
    ExactlyOnce(s) && WithinBudget(s) && RetriesPaid(s) && ClosedMeansClosed(s)
  }

  /** A step that grants nothing leaves every grant as it was. */
  lemma SameGrants(s: State, t: State)
    requires ExactlyOnce(s) && t.order == s.order && t.used == s.used
    requires forall k, n :: HoldsUnit(t, k, n) <==> HoldsUnit(s, k, n)
    ensures ExactlyOnce(t)
  {
    hide HoldsUnit;
  }

  lemma ExactlyOnceKept(s: State, e: Event)
    requires ExactlyOnce(s) && Enabled(s, e)
    ensures ExactlyOnce(Next(s, e))
  {
    hide Available, Sum, InLoop, ExactlyOnce;
    if e.Advance? && s.callers[e.caller].pc == Loaded(s.used) {
      GrantKept(s, e.caller);
    } else {
      SameGrants(s, Next(s, e));
    }
  }

  lemma GrantKept(s: State, k: nat)
    requires ExactlyOnce(s) && Enabled(s, Advance(k)) && s.callers[k].pc == Loaded(s.used)
    ensures ExactlyOnce(Next(s, Advance(k)))
  {
    var t := Next(s, Advance(k));
    assert t.order == s.order + [k] && t.used == s.used + 1;
    forall j, n ensures HoldsUnit(t, j, n) <==> HoldsUnit(s, j, n) || (j == k && n == s.used + 1) {
    }
    hide HoldsUnit, Next, Enabled;
    forall n | 0 <= n < |t.order| ensures HoldsUnit(t, t.order[n], n + 1) {
      if n < |s.order| {
        assert HoldsUnit(s, s.order[n], n + 1);
      }
    }
  }

  lemma WithinBudgetKept(s: State, e: Event)
    requires WithinBudget(s) && Enabled(s, e)
    ensures WithinBudget(Next(s, e))
  {
  }

  lemma RetriesPaidKept(s: State, e: Event)
    requires RetriesPaid(s) && WithinBudget(s) && Enabled(s, e)
    ensures RetriesPaid(Next(s, e))
  {
    hide Available;
  }

  lemma ClosedKept(s: State, e: Event)
    requires ClosedMeansClosed(s) && Enabled(s, e)
    ensures ClosedMeansClosed(Next(s, e))
  {
    hide Available;
    match e
    case Enter =>
      SumAppend(s.callers, Caller(Entered, s.closed, 0, 0), InLoop());
    case Close =>
      SumNonNegative(s.callers, InLoop());
    case Advance(k) =>
      SumUpdate(s.callers, k, Next(s, e).callers[k], InLoop());
  }

  lemma {:induction false} RunKeepsInv(s: State, events: seq<Event>, t: State)
    requires Inv(s) && Executes(s, events, t)
    ensures Inv(t) && t.budget == s.budget && t.hardCap == s.hardCap
    decreases |events|
  {
    if events != [] {
      StepKeepsInv(s, events[0]);
      RunKeepsInv(Next(s, events[0]), events[1..], t);
    }
  }

  lemma StepKeepsInv(s: State, e: Event)
    requires Inv(s) && Enabled(s, e)
    ensures Inv(Next(s, e))
    ensures Next(s, e).budget == s.budget && Next(s, e).hardCap == s.hardCap
  {
    ExactlyOnceKept(s, e);
    WithinBudgetKept(s, e);
    RetriesPaidKept(s, e);
    ClosedKept(s, e);
  }

  // ----- main results

  /** Never more than the budget, never more than the cap, and the numbers
      handed out are 1..used, each to one caller. */
  lemma NeverOverIssues(s: State, events: seq<Event>, t: State)
    requires Initial(s) && Executes(s, events, t)
    ensures 0 <= t.used <= Max(s.budget, 0)
    ensures s.hardCap > 0 ==> t.used <= s.hardCap
    ensures forall n :: Held(t, n) <==> 1 <= n <= t.used
    ensures forall j, k, n :: HoldsUnit(t, j, n) && HoldsUnit(t, k, n) ==> j == k
  {
    RunKeepsInv(s, events, t);
    hide Executes, RetriesPaid, ClosedMeansClosed, HoldsUnit;
    forall n ensures Held(t, n) <==> 1 <= n <= t.used {
      if 1 <= n <= t.used {
        assert HoldsUnit(t, t.order[n - 1], n - 1 + 1);
      }
    }
  }

  /** Some caller was granted unit n. */
  ghost predicate Held(s: State, n: int) {
    exists k :: HoldsUnit(s, k, n)
  }

  /** A caller's failed swaps never outnumber the units granted to others since
      it entered the loop: for one granted unit n, the units before n; for one
      that has none, all that were granted meanwhile. */
  lemma RetriesBounded(s: State, events: seq<Event>, t: State, k: nat, n: int)
    requires Initial(s) && Executes(s, events, t) && k < |t.callers|
    ensures HoldsUnit(t, k, n) ==> t.callers[k].retries <= n - 1 - t.callers[k].base
    ensures t.callers[k].retries <= Max(t.used - t.callers[k].base, 0)
  {
    RunKeepsInv(s, events, t);
  }

  /** An Acquire that begins once the quota is closed fails, and the units
      granted after closing are at most the calls that were past the check. */
  lemma CloseStopsIssuance(s: State, events: seq<Event>, t: State)
    requires Initial(s) && Executes(s, events, t) && t.closed
    ensures forall k :: 0 <= k < |t.callers| && t.callers[k].afterClose && t.callers[k].pc.Returned? ==>
              t.callers[k].pc.grant == Exhausted
    ensures t.late <= t.inLoopAtClose
  {
    RunKeepsInv(s, events, t);
    SumNonNegative(t.callers, InLoop());
  }

  /** Caller k is past the check of closed and has not returned. */
  predicate PastCheck(s: State, k: int) {
    0 <= k < |s.callers| && (s.callers[k].pc.Looping? || s.callers[k].pc.Loaded?)
  }

  /** From any moment at which the quota is closed: a call that begins later never
      takes a unit, and the units still granted are at most the calls that are
      past the check at that moment. */
  lemma ClosedGivesNoMore(s: State, events: seq<Event>, t: State, more: seq<Event>, u: State)
    requires Initial(s) && Executes(s, events, t) && t.closed && Executes(t, more, u)
    ensures |t.callers| <= |u.callers|
    ensures forall k :: |t.callers| <= k < |u.callers| ==>
              u.callers[k].pc.Entered? || u.callers[k].pc == Returned(Exhausted)
    ensures t.used <= u.used <= t.used + Sum(t.callers, InLoop())
  {
    ClosedRun(t, more, u, |t.callers|);
    SumNonNegative(u.callers, InLoop());
  }

  ghost predicate NoneSince(s: State, n: nat) {
    n <= |s.callers|
    && forall k :: n <= k < |s.callers| ==> s.callers[k].pc.Entered? || s.callers[k].pc == Returned(Exhausted)
  }

  lemma {:induction false} ClosedRun(t: State, more: seq<Event>, u: State, n: nat)
    requires t.closed && Executes(t, more, u) && NoneSince(t, n)
    ensures NoneSince(u, n) && u.used + Sum(u.callers, InLoop()) <= t.used + Sum(t.callers, InLoop()) && t.used <= u.used
    decreases |more|
  {
    hide NoneSince, Sum, InLoop;
    if more != [] {
      ClosedStep(t, more[0], n);
      ClosedRun(Next(t, more[0]), more[1..], u, n);
    }
  }

  lemma ClosedStep(s: State, e: Event, n: nat)
    requires s.closed && Enabled(s, e) && NoneSince(s, n)
    ensures var t := Next(s, e);
            && t.closed && NoneSince(t, n) && s.used <= t.used
            && t.used + Sum(t.callers, InLoop()) <= s.used + Sum(s.callers, InLoop())
  {
    hide Available;
    match e
    case Enter =>
      SumAppend(s.callers, Caller(Entered, s.closed, 0, 0), InLoop());
    case Close =>
    case Advance(k) =>
      SumUpdate(s.callers, k, Next(s, e).callers[k], InLoop());
  }

  /** Once the quota is closed, a further unit can be granted if and only if some
      call is past the check and a unit is left. */
  lemma LateGrantPossible(s: State, events: seq<Event>, t: State)
    requires Initial(s) && Executes(s, events, t) && t.closed
    ensures (exists more, u :: Executes(t, more, u) && u.used > t.used) <==>
            (exists k :: PastCheck(t, k)) && Available(t.used, t.budget, t.hardCap)
  {
    RunKeepsInv(s, events, t);
    hide Available, Inv;
    if (exists k :: PastCheck(t, k)) && Available(t.used, t.budget, t.hardCap) {
      var k: nat :| PastCheck(t, k);
      var more, u := GrantsLate(t, k);
    }
    if exists more, u :: Executes(t, more, u) && u.used > t.used {
      var more, u :| Executes(t, more, u) && u.used > t.used;
      LateNeedsBoth(t, more, u);
    }
  }

  lemma GrantsLate(t: State, k: nat) returns (more: seq<Event>, u: State)
    requires t.closed && PastCheck(t, k) && Available(t.used, t.budget, t.hardCap)
    ensures Executes(t, more, u) && u.used == t.used + 1
  {
    hide Available;
    if t.callers[k].pc.Looping? {
      more, u := GrantsFromLoop(t, k);
    } else if t.callers[k].pc == Loaded(t.used) {
      u := Next(t, Advance(k));
      more := [Advance(k)];
      Chain(more, [t, u]);
    } else {
      var v := Next(t, Advance(k));
      more, u := GrantsFromLoop(v, k);
      assert ([Advance(k)] + more)[1..] == more;
      more := [Advance(k)] + more;
    }
  }

  lemma GrantsFromLoop(t: State, k: nat) returns (more: seq<Event>, u: State)
    requires t.closed && PastCheck(t, k) && t.callers[k].pc.Looping? && Available(t.used, t.budget, t.hardCap)
    ensures Executes(t, more, u) && u.used == t.used + 1
  {
    hide Available;
    var v := Next(t, Advance(k));
    u := Next(v, Advance(k));
    more := [Advance(k), Advance(k)];
    Chain(more, [t, v, u]);
  }

  /** No call is past the check, or no unit is left. */
  ghost predicate Dry(s: State) {
    s.closed && ((forall k :: !PastCheck(s, k)) || !Available(s.used, s.budget, s.hardCap))
  }

  lemma DryKept(s: State, e: Event)
    requires Dry(s) && WithinBudget(s) && Enabled(s, e)
    ensures Dry(Next(s, e)) && Next(s, e).used == s.used
  {
    if forall k :: !PastCheck(s, k) {
      hide Available;
      if e.Advance? {
        assert !PastCheck(s, e.caller);
      }
      forall k ensures !PastCheck(Next(s, e), k) {
        assert !PastCheck(s, k);
      }
    }
  }

  lemma {:induction false} LateNeedsBoth(t: State, more: seq<Event>, u: State)
    requires Inv(t) && t.closed && Executes(t, more, u)
    ensures Dry(t) ==> u.used == t.used
    decreases |more|
  {
    hide Dry, Inv;
    if more != [] {
      StepKeepsInv(t, more[0]);
      StaysClosed(t, more[0]);
      InvBudget(t);
      if Dry(t) {
        DryKept(t, more[0]);
      }
      LateNeedsBoth(Next(t, more[0]), more[1..], u);
    }
  }

  lemma StaysClosed(s: State, e: Event)
    requires s.closed && Enabled(s, e)
    ensures Next(s, e).closed
  {
    hide Available;
  }

  lemma InvBudget(s: State)
    requires Inv(s)
    ensures WithinBudget(s)
  {
  }

  /** "No issue after the budget closes" does not hold of a call already past
      the check: closed between its check and its swap, it is still granted. */
  lemma GrantAfterCloseExample()
    ensures var s := State(1, 0, 0, false, [], [], 0, 0);
            var t := State(1, 0, 1, true, [Caller(Returned(Granted(1)), false, 0, 0)], [0], 1, 1);
            Initial(s) && Executes(s, [Enter, Advance(0), Close, Advance(0), Advance(0)], t)
  {
    var s0 := State(1, 0, 0, false, [], [], 0, 0);
    var s1 := s0.(callers := [Caller(Entered, false, 0, 0)]);
    var s2 := s0.(callers := [Caller(Looping, false, 0, 0)]);
    var s3 := s2.(closed := true, inLoopAtClose := 1);
    var s4 := s3.(callers := [Caller(Loaded(0), false, 0, 0)]);
    var s5 := State(1, 0, 1, true, [Caller(Returned(Granted(1)), false, 0, 0)], [0], 1, 1);
    assert Next(s0, Enter) == s1;
    assert Next(s1, Advance(0)) == s2;
    assert Sum(s2.callers, InLoop()) == 1 by {
      SumAppend([], s2.callers[0], InLoop());
    }
    assert Next(s2, Close) == s3;
    assert Next(s3, Advance(0)) == s4;
    assert Next(s4, Advance(0)) == s5;
    Chain([Enter, Advance(0), Close, Advance(0), Advance(0)], [s0, s1, s2, s3, s4, s5]);
  }

  /** A list of states that follow one another is an execution. */
  lemma {:induction false} Chain(events: seq<Event>, states: seq<State>)
    requires |states| == |events| + 1
    requires forall i :: 0 <= i < |events| ==> Enabled(states[i], events[i]) && states[i + 1] == Next(states[i], events[i])
    ensures Executes(states[0], events, states[|events|])
    decreases |events|
  {
    if events != [] {
      Chain(events[1..], states[1..]);
    }
  }
}
