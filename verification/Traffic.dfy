/** HTTP traffic of one authenticator shared by any number of workers: what is
    sent and what is counted, over every interleaving of their calls.

    Every request handed to the client and every addition to the counter of
    authentication requests is one step; what the network answers, and whether a
    challenge can be read and answered, is free.
 */
module Traffic {
  import opened Fold

  /** How the authenticator is configured. */
  datatype Setup = Setup(digest: bool, perRequest: bool, wellFormed: bool)

  /** What comes back: nothing, a challenge worth answering (a 401 to a draw, a
      stale one to a timestamp), such a challenge that cannot be answered, or
      anything else. */
  datatype Answer = NoResponse | Challenge | BadChallenge | Other

  /** Where a call stands: about to decide whether to prime; about to build its
      request; about to send a bodiless draw, count it, and act on its answer;
      about to send the timestamp; holding its answer; about to count a stale
      challenge and to send the timestamp again. */
  datatype Pc =
    | Priming
    | Building
    | Drawing
    | CountingDraw(answer: Answer)
    | Signing(answer: Answer)
    | Sending
    | Judging(answer: Answer)
    | CountingStale
    | Resending
    | Returned

  /** A call of Prime or of PostTimestamp, and what it has done so far. */
  datatype Call = Call(prime: bool, pc: Pc, sent: nat, counted: nat, built: nat)

  /** sent is what the client was given, requests the authenticator's counter,
      built the timestamps whose first build succeeded. */
  datatype State = State(calls: seq<Call>, sent: int, requests: int, built: int)

  datatype Event = Begin(prime: bool) | Step(call: nat, answer: Answer)

  const START := State([], 0, 0, 0)

  predicate PerRequest(c: Setup) {
    c.digest && c.perRequest
  }

  predicate Enabled(s: State, e: Event) {
    e.Step? ==> e.call < |s.calls| && !s.calls[e.call].pc.Returned?
  }

  function Next(c: Setup, s: State, e: Event): State
    requires Enabled(s, e)
  {
    match e
    case Begin(prime) => s.(calls := s.calls + [Call(prime, if prime then Priming else Building, 0, 0, 0)])
    case Step(k, answer) =>
      var x := s.calls[k];
      match x.pc
      case Priming => Goto(s, k, if !c.digest || c.perRequest || answer.Challenge? then Returned else Drawing)
      case Building =>
        if !c.wellFormed then Goto(s, k, Returned)
        else if PerRequest(c) then Goto(s, k, Drawing)
        else Build(s, k)
      case Drawing =>
        if c.wellFormed then Send(s, k, CountingDraw(answer)) else Goto(s, k, CountingDraw(NoResponse))
      case CountingDraw(drawn) => Count(s, k, if x.prime then Returned else Signing(drawn))
      case Signing(drawn) =>
        if drawn.Challenge? then Build(s, k) else Goto(s, k, Returned)
      case Sending => Send(s, k, Judging(answer))
      case Judging(got) =>
        if PerRequest(c) || !c.digest then Goto(s, k, Returned)
        else if got.Challenge? then Goto(s, k, CountingStale)
        else Goto(s, k, Returned)
      case CountingStale => Count(s, k, Resending)
      case Resending => Send(s, k, Returned)
      case Returned => s
  }

  function Goto(s: State, k: nat, pc: Pc): State
    requires k < |s.calls|
  {
    s.(calls := s.calls[k := s.calls[k].(pc := pc)])
  }

  /** One client.Do. */
  function Send(s: State, k: nat, pc: Pc): State
    requires k < |s.calls|
  {
    var x := s.calls[k];
    s.(calls := s.calls[k := x.(pc := pc, sent := x.sent + 1)], sent := s.sent + 1)
  }

  /** One requests.Add(1). */
  function Count(s: State, k: nat, pc: Pc): State
    requires k < |s.calls|
  {
    var x := s.calls[k];
    s.(calls := s.calls[k := x.(pc := pc, counted := x.counted + 1)], requests := s.requests + 1)
  }

  /** The first build of a timestamp succeeds. */
  function Build(s: State, k: nat): State
    requires k < |s.calls|
  {
    var x := s.calls[k];
    s.(calls := s.calls[k := x.(pc := Sending, built := x.built + 1)], built := s.built + 1)
  }

  ghost predicate Executes(c: Setup, s: State, events: seq<Event>, t: State)
    decreases |events|
  {
    if events == [] then s == t
    else Enabled(s, events[0]) && Executes(c, Next(c, s, events[0]), events[1..], t)
  }

  // ----- the invariant

  function SentBy(): Call -> int {
    (x: Call) => x.sent
  }

  function CountedBy(): Call -> int {
    (x: Call) => x.counted
  }

  function BuiltBy(): Call -> int {
    (x: Call) => x.built
  }

  function Busy(): Call -> int {
    (x: Call) => if x.pc.Returned? then 0 else 1
  }

  /** What a call has sent beyond what it has counted and built. */
  function Ahead(x: Call): int {
    match x.pc
    case CountingDraw(_) => 1
    case Sending => -1
    case Resending => -1
    case _ => 0
  }

  /** What a call at this point has counted and built. */
  predicate Filed(c: Setup, x: Call) {
    match x.pc
    case Priming | Building | Drawing => x.counted == x.built == 0
    case CountingDraw(_) => x.counted == x.built == 0
    case Signing(_) => x.counted == 1 && x.built == 0
    case Sending => x.built == 1 && x.counted == if PerRequest(c) then 1 else 0
    case Judging(_) => x.built == 1 && x.counted == if PerRequest(c) then 1 else 0
    case CountingStale => x.built == 1 && x.counted == 0
    case Resending => x.built == 1 && x.counted == 1
    case Returned => x.built <= 1 && x.counted <= 1 && (x.prime ==> x.built == 0)
  }

  /** Where a call of this kind can stand. */
  predicate Placed(c: Setup, x: Call) {
    match x.pc
    case Priming => x.prime
    case Drawing => x.prime || PerRequest(c)
    case CountingDraw(_) => x.prime || PerRequest(c)
    case Signing(_) => !x.prime && PerRequest(c)
    case Building | Sending => !x.prime
    case Judging(_) => !x.prime
    case CountingStale | Resending => !x.prime && !PerRequest(c)
    case Returned => true
  }

  /** To a malformed endpoint only a draw is attempted, and only by Prime. */
  predicate Reaches(c: Setup, x: Call) {
    match x.pc
    case Priming | Building | Returned => true
    case Drawing => c.wellFormed || x.prime
    case CountingDraw(_) => c.wellFormed || x.prime
    case _ => c.wellFormed
  }

  ghost predicate CallInv(c: Setup, x: Call) {
    && (if c.wellFormed then x.sent == x.counted + x.built + Ahead(x) else x.sent == x.built == 0)
    && Filed(c, x) && Placed(c, x) && Reaches(c, x)
  }

  ghost predicate Inv(c: Setup, s: State) {
    && s.sent == Sum(s.calls, SentBy()) && s.requests == Sum(s.calls, CountedBy()) && s.built == Sum(s.calls, BuiltBy())
    && forall k :: 0 <= k < |s.calls| ==> CallInv(c, s.calls[k])
  }

  lemma CallKept(c: Setup, s: State, k: nat, answer: Answer)
    requires Enabled(s, Step(k, answer)) && CallInv(c, s.calls[k])
    ensures var t := Next(c, s, Step(k, answer));
            |t.calls| == |s.calls| && t.calls == s.calls[k := t.calls[k]] && CallInv(c, t.calls[k])
  {
  }

  lemma NewCall(c: Setup, prime: bool)
    ensures CallInv(c, Call(prime, if prime then Priming else Building, 0, 0, 0))
  {
  }

  /** The shared counters move as the call's own do. */
  lemma CallTotals(c: Setup, s: State, k: nat, answer: Answer)
    requires Enabled(s, Step(k, answer))
    ensures var t := Next(c, s, Step(k, answer));
            && k < |t.calls| && t.sent - s.sent == t.calls[k].sent - s.calls[k].sent
            && t.requests - s.requests == t.calls[k].counted - s.calls[k].counted
            && t.built - s.built == t.calls[k].built - s.calls[k].built
  {
  }

  lemma StepKeepsInv(c: Setup, s: State, e: Event)
    requires Inv(c, s) && Enabled(s, e)
    ensures Inv(c, Next(c, s, e))
  {
    var t := Next(c, s, e);
    hide Ahead, Filed, Placed, Reaches;
    match e
    case Begin(prime) =>
      NewCall(c, prime);
      var x := t.calls[|s.calls|];
      SumAppend(s.calls, x, SentBy());
      SumAppend(s.calls, x, CountedBy());
      SumAppend(s.calls, x, BuiltBy());
      hide Sum;
    case Step(k, answer) =>
      CallKept(c, s, k, answer);
      CallTotals(c, s, k, answer);
      hide Next, Enabled, CallInv;
      SumUpdate(s.calls, k, t.calls[k], SentBy());
      SumUpdate(s.calls, k, t.calls[k], CountedBy());
      SumUpdate(s.calls, k, t.calls[k], BuiltBy());
      hide Sum;
  }

  lemma {:induction false} RunKeepsInv(c: Setup, s: State, events: seq<Event>, t: State)
    requires Inv(c, s) && Executes(c, s, events, t)
    ensures Inv(c, t)
    decreases |events|
  {
    hide Inv, Next, Enabled;
    if events != [] {
      StepKeepsInv(c, s, events[0]);
      RunKeepsInv(c, Next(c, s, events[0]), events[1..], t);
    }
  }

  // ----- main results

  function AheadBy(): Call -> int {
    (x: Call) => Ahead(x)
  }

  function AheadOrBuilt(): Call -> int {
    (x: Call) => x.built + Ahead(x)
  }

  function NotBusy(): Call -> int {
    (x: Call) => -Busy()(x)
  }

  /** Conservation, at every moment of every interleaving: to a well-formed
      endpoint, what was sent differs from what was counted as authentication
      plus the timestamps built by at most the calls under way, and not at all
      when none is. Nothing is ever sent to a malformed one. */
  lemma TrafficConserved(c: Setup, events: seq<Event>, t: State)
    requires Executes(c, START, events, t)
    ensures var busy := Sum(t.calls, Busy());
            if c.wellFormed then -busy <= t.sent - t.requests - t.built <= busy
            else t.sent == 0 && t.built == 0
    ensures (forall k :: 0 <= k < |t.calls| ==> t.calls[k].pc.Returned?) && c.wellFormed ==> t.sent == t.requests + t.built
  {
    RunKeepsInv(c, START, events, t);
    hide Executes;
    if c.wellFormed {
      SumAdd(t.calls, CountedBy(), AheadOrBuilt(), SentBy());
      SumAdd(t.calls, BuiltBy(), AheadBy(), AheadOrBuilt());
      SumMonotone(t.calls, AheadBy(), Busy());
      SumMonotone(t.calls, NotBusy(), AheadBy());
      SumNegated(t.calls);
      if forall k :: 0 <= k < |t.calls| ==> t.calls[k].pc.Returned? {
        SumZero(t.calls, Busy());
      }
    } else {
      SumZero(t.calls, SentBy());
      SumZero(t.calls, BuiltBy());
    }
  }

  lemma {:induction false} SumNegated(calls: seq<Call>)
    ensures Sum(calls, NotBusy()) == -Sum(calls, Busy())
  {
    if calls != [] {
      SumNegated(calls[..|calls| - 1]);
    }
  }

  /** What one finished timestamp cost: one request, and at most one more, for
      its own challenge or for a second send; a timestamp that could not be built
      was never sent, and one to a malformed endpoint cost nothing. */
  lemma CostOfCall(c: Setup, events: seq<Event>, t: State, k: nat)
    requires Executes(c, START, events, t) && k < |t.calls| && t.calls[k].pc.Returned?
    ensures var x := t.calls[k];
            && x.counted <= 1 && x.built <= 1 && (x.prime ==> x.built == 0)
            && (if c.wellFormed then x.sent == x.counted + x.built else x.sent == x.built == 0)
  {
    RunKeepsInv(c, START, events, t);
  }
}
