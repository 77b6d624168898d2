/** The collector: counters for every stage, for the whole run and for every
    second of it, bumped by many goroutines at once.

    A record call is a short program of atomic additions, with one visit to the
    lock of the per-second series in it; calls interleave addition by addition.
 */
module Collector {
  import opened Common
  import opened Fold

  datatype Place = StageOf(stage: nat) | Overall | SecondOf(second: nat)

  datatype Field = Sent | Completed | Samples | Class(key: string) | Success | Failure | Timeouts

  /** What is filed: a request handed to the transport, or a finished attempt. */
  datatype Filing = SentFiling | DoneFiling(key: string, ok: bool, timeout: bool)

  datatype Instr = Add(place: Place, field: Field) | Locate

  /** One record call. bucket is the per-second bucket it was handed; missed
      that it found the series too short and waits to extend it. */
  datatype Call = Call(stage: nat, second: nat, filing: Filing, pc: nat, missed: bool, bucket: Option<nat>)

  /** Buckets are shared by reference: seconds lists them, cells holds them. */
  datatype Cell = StageCell(stage: nat) | OverallCell | BucketCell(bucket: nat)

  datatype Counter = Counter(cell: Cell, field: Field)

  datatype State = State(calls: seq<Call>, seconds: seq<nat>, made: nat, cells: map<Counter, int>)

  // ----- the programs

  /** The additions at one accumulator; the per-second rows keep no classes. */
  function Marks(place: Place, filing: Filing, detailed: bool): seq<Instr> {
    match filing
    case SentFiling => [Add(place, Sent)]
    case DoneFiling(key, ok, timeout) =>
      [Add(place, Completed)]
      + (if detailed then [Add(place, Samples), Add(place, Class(key))] else [])
      + (if ok then [Add(place, Success)] else [Add(place, Failure)])
      + (if !ok && timeout then [Add(place, Timeouts)] else [])
  }

  function Program(c: Call): seq<Instr> {
    Before(c) + [Locate] + Marks(SecondOf(c.second), c.filing, false)
  }

  function Before(c: Call): seq<Instr> {
    Marks(StageOf(c.stage), c.filing, true) + Marks(Overall, c.filing, true)
  }

  predicate Finished(c: Call) {
    c.pc >= |Program(c)|
  }

  // ----- steps

  datatype Event = RecordSent(stage: nat, second: nat) | Record(stage: nat, second: nat, key: string, ok: bool, timeout: bool)
                 | Advance(call: nat)

  function Read(cells: map<Counter, int>, cell: Cell, field: Field): int {
    if Counter(cell, field) in cells then cells[Counter(cell, field)] else 0
  }

  predicate Enabled(s: State, e: Event) {
    e.Advance? ==> e.call < |s.calls| && !Finished(s.calls[e.call])
  }

  function Next(s: State, e: Event): State
    requires Enabled(s, e)
  {
    match e
    case RecordSent(stage, second) =>
      s.(calls := s.calls + [Call(stage, second, SentFiling, 0, false, None)])
    case Record(stage, second, key, ok, timeout) =>
      s.(calls := s.calls + [Call(stage, second, DoneFiling(key, ok, timeout), 0, false, None)])
    case Advance(k) =>
      match Program(s.calls[k])[s.calls[k].pc]
      case Add(place, field) => AddStep(s, k, place, field)
      case Locate => LocateStep(s, k)
  }

  /** The counter an addition goes to; a second's through the bucket in hand. */
  function Target(c: Call, place: Place): Cell {
    match place
    case StageOf(i) => StageCell(i)
    case Overall => OverallCell
    case SecondOf(_) => BucketCell(if c.bucket.Some? then c.bucket.value else 0)
  }

  function AddStep(s: State, k: nat, place: Place, field: Field): State
    requires k < |s.calls|
  {
    var c := s.calls[k];
    var cell := Target(c, place);
    s.(calls := s.calls[k := c.(pc := c.pc + 1)],
       cells := s.cells[Counter(cell, field) := Read(s.cells, cell, field) + 1])
  }

  /** second: under the read lock if the series is long enough; otherwise, in a
      second visit, under the write lock, extending it first. */
  function LocateStep(s: State, k: nat): State
    requires k < |s.calls|
  {
    var c := s.calls[k];
    if c.second < |s.seconds| then
      s.(calls := s.calls[k := c.(pc := c.pc + 1, bucket := Some(s.seconds[c.second]))])
    else if !c.missed then
      s.(calls := s.calls[k := c.(missed := true)])
    else
      var seconds := Grow(s.seconds, s.made, c.second);
      s.(calls := s.calls[k := c.(pc := c.pc + 1, bucket := Some(seconds[c.second]))],
         seconds := seconds, made := s.made + (|seconds| - |s.seconds|))
  }

  /** Appends new buckets until the series covers second. */
  function Grow(seconds: seq<nat>, made: nat, second: nat): (r: seq<nat>)
    ensures second < |r| && |seconds| <= |r| && r[..|seconds|] == seconds
    ensures forall i :: |seconds| <= i < |r| ==> r[i] == made + (i - |seconds|)
    decreases second + 1 - |seconds|
  {
    if |seconds| > second then seconds
    else Grow(seconds + [made], made + 1, second)
  }

  ghost predicate Initial(s: State) {
    s == State([], [], 0, map[])
  }

  ghost predicate Executes(s: State, events: seq<Event>, t: State)
    decreases |events|
  {
    if events == [] then s == t
    else Enabled(s, events[0]) && Executes(Next(s, events[0]), events[1..], t)
  }

  // ----- the invariant

  /** How often a call has performed an addition so far. */
  function Performed(place: Place, field: Field): Call -> int {
    (c: Call) => if c.pc <= |Program(c)| then multiset(Program(c)[..c.pc])[Add(place, field)] else 0
  }

  /** What a reader of the collector sees at a place. */
  function Value(s: State, place: Place, field: Field): int {
    match place
    case StageOf(i) => Read(s.cells, StageCell(i), field)
    case Overall => Read(s.cells, OverallCell, field)
    case SecondOf(i) => if i < |s.seconds| then Read(s.cells, BucketCell(s.seconds[i]), field) else 0
  }

  ghost predicate SeriesInv(s: State) {
    && (forall i :: 0 <= i < |s.seconds| ==> s.seconds[i] < s.made)
    && (forall i, j :: 0 <= i < j < |s.seconds| ==> s.seconds[i] != s.seconds[j])
    && (forall b, f :: b >= s.made ==> Counter(BucketCell(b), f) !in s.cells)
  }

  /** A call past the lock holds the bucket of its own second. */
  ghost predicate HoldsBucket(s: State, c: Call) {
    && c.pc <= |Program(c)|
    && (c.pc > |Before(c)| ==> c.second < |s.seconds| && c.bucket == Some(s.seconds[c.second]))
  }

  ghost predicate CallsInv(s: State) {
    forall k :: 0 <= k < |s.calls| ==> HoldsBucket(s, s.calls[k])
  }

  /** Every counter is exactly the additions performed on it. */
  ghost predicate Exact(s: State) {
    forall place, field :: Value(s, place, field) == Sum(s.calls, Performed(place, field))
  }

  ghost predicate Inv(s: State) {
    SeriesInv(s) && CallsInv(s) && Exact(s)
  }

  /** Which instruction a call is at decides what it may touch. */
  lemma ProgramShape(c: Call, pc: nat)
    requires pc < |Program(c)|
    ensures Program(c)[pc] == Locate <==> pc == |Before(c)|
    ensures pc < |Before(c)| ==> Program(c)[pc].Add? && !Program(c)[pc].place.SecondOf?
    ensures pc > |Before(c)| ==> Program(c)[pc].Add? && Program(c)[pc].place == SecondOf(c.second)
  {
    var b := Before(c);
    if pc < |b| {
      assert Program(c)[pc] == b[pc];
    } else if pc > |b| {
      assert Program(c)[pc] == Marks(SecondOf(c.second), c.filing, false)[pc - |b| - 1];
    }
  }

  /** One addition moves one counter by one. */
  lemma PerformedNext(c: Call, place: Place, field: Field)
    requires c.pc < |Program(c)|
    ensures Performed(place, field)(c.(pc := c.pc + 1)) ==
            Performed(place, field)(c) + (if Program(c)[c.pc] == Add(place, field) then 1 else 0)
  {
    SameProgram(c, c.(pc := c.pc + 1));
    hide Program;
    CountNext(Program(c), c.pc, Add(place, field));
  }

  lemma CountNext(p: seq<Instr>, n: nat, x: Instr)
    requires n < |p|
    ensures multiset(p[..n + 1])[x] == multiset(p[..n])[x] + (if p[n] == x then 1 else 0)
  {
    assert p[..n + 1] == p[..n] + [p[n]];
  }

  /** The program does not change as it runs. */
  lemma SameProgram(c: Call, x: Call)
    requires c.stage == x.stage && c.second == x.second && c.filing == x.filing
    ensures Program(x) == Program(c) && Before(x) == Before(c)
  {
    hide Marks;
  }

  lemma AddKeepsExact(s: State, k: nat)
    requires Inv(s) && Enabled(s, Advance(k)) && Program(s.calls[k])[s.calls[k].pc].Add?
    ensures Exact(Next(s, Advance(k)))
  {
    var t := Next(s, Advance(k));
    assert HoldsBucket(s, s.calls[k]);
    hide Next, Program, Value, Sum, Performed, HoldsBucket, SeriesInv;
    forall place, field ensures Value(t, place, field) == Sum(t.calls, Performed(place, field)) {
      assert Value(s, place, field) == Sum(s.calls, Performed(place, field));
      AddMoves(s, k, place, field);
      AddPerformed(s, k, place, field);
    }
  }

  lemma AddPerformed(s: State, k: nat, place: Place, field: Field)
    requires Enabled(s, Advance(k)) && Program(s.calls[k])[s.calls[k].pc].Add?
    ensures Sum(Next(s, Advance(k)).calls, Performed(place, field)) ==
            Sum(s.calls, Performed(place, field)) + (if Program(s.calls[k])[s.calls[k].pc] == Add(place, field) then 1 else 0)
  {
    var c := s.calls[k];
    PerformedNext(c, place, field);
    SumUpdate(s.calls, k, c.(pc := c.pc + 1), Performed(place, field));
    hide Program, Performed, Sum;
  }

  /** An addition is seen at its own place and nowhere else. */
  lemma AddMoves(s: State, k: nat, place: Place, field: Field)
    requires SeriesInv(s) && Enabled(s, Advance(k)) && Program(s.calls[k])[s.calls[k].pc].Add?
    requires HoldsBucket(s, s.calls[k])
    ensures Value(Next(s, Advance(k)), place, field) ==
            Value(s, place, field) + (if Program(s.calls[k])[s.calls[k].pc] == Add(place, field) then 1 else 0)
  {
    var c := s.calls[k];
    ProgramShape(c, c.pc);
    hide Program;
  }

  lemma AddKeepsRest(s: State, k: nat)
    requires Inv(s) && Enabled(s, Advance(k)) && Program(s.calls[k])[s.calls[k].pc].Add?
    ensures SeriesInv(Next(s, Advance(k))) && CallsInv(Next(s, Advance(k)))
  {
    var c := s.calls[k];
    ProgramShape(c, c.pc);
    assert HoldsBucket(s, c);
    var t := Next(s, Advance(k));
    assert Program(c.(pc := c.pc + 1)) == Program(c) && Before(c.(pc := c.pc + 1)) == Before(c);
    hide Program, Before;
    forall j | 0 <= j < |t.calls| ensures HoldsBucket(t, t.calls[j]) {
      assert HoldsBucket(s, s.calls[j]);
    }
  }

  lemma LocateKeeps(s: State, k: nat)
    requires Inv(s) && Enabled(s, Advance(k)) && Program(s.calls[k])[s.calls[k].pc] == Locate
    ensures Inv(LocateStep(s, k)) && s.seconds <= LocateStep(s, k).seconds
  {
    GrowKeepsSeries(s, k);
    LocateKeepsCalls(s, k);
    LocateKeepsExact(s, k);
  }

  lemma LocateKeepsCalls(s: State, k: nat)
    requires CallsInv(s) && Enabled(s, Advance(k)) && Program(s.calls[k])[s.calls[k].pc] == Locate
    ensures CallsInv(LocateStep(s, k))
  {
    var c := s.calls[k];
    var t := LocateStep(s, k);
    var x := t.calls[k];
    ProgramShape(c, c.pc);
    assert Program(x) == Program(c) && Before(x) == Before(c);
    hide Program, Before;
    forall j | 0 <= j < |t.calls| ensures HoldsBucket(t, t.calls[j]) {
      assert HoldsBucket(s, s.calls[j]);
    }
  }

  lemma LocateKeepsExact(s: State, k: nat)
    requires SeriesInv(s) && Exact(s) && Enabled(s, Advance(k)) && Program(s.calls[k])[s.calls[k].pc] == Locate
    ensures Exact(LocateStep(s, k))
  {
    var c := s.calls[k];
    var t := LocateStep(s, k);
    var x := t.calls[k];
    assert t.calls == s.calls[k := x];
    forall place, field ensures Value(t, place, field) == Sum(t.calls, Performed(place, field)) {
      SumUpdate(s.calls, k, x, Performed(place, field));
      SamePerformed(c, x, place, field);
      hide Program, Performed;
      assert Value(s, place, field) == Sum(s.calls, Performed(place, field));
      GrowKeepsValue(s, k, place, field);
      hide LocateStep, Value;
    }
  }

  lemma SamePerformed(c: Call, x: Call, place: Place, field: Field)
    requires c.stage == x.stage && c.second == x.second && c.filing == x.filing
    requires c.pc < |Program(c)| && Program(c)[c.pc] == Locate && (x.pc == c.pc || x.pc == c.pc + 1)
    ensures Performed(place, field)(x) == Performed(place, field)(c)
  {
    hide Marks;
    assert Program(x) == Program(c);
    PerformedNext(c, place, field);
    hide Program;
  }

  lemma GrowKeepsSeries(s: State, k: nat)
    requires SeriesInv(s) && k < |s.calls|
    ensures SeriesInv(LocateStep(s, k)) && s.seconds <= LocateStep(s, k).seconds
  {
  }

  /** New buckets are empty, and the old ones stay where they were. */
  lemma GrowKeepsValue(s: State, k: nat, place: Place, field: Field)
    requires SeriesInv(s) && k < |s.calls|
    ensures Value(LocateStep(s, k), place, field) == Value(s, place, field)
  {
    var t := LocateStep(s, k);
    if place.SecondOf? && place.second < |s.seconds| {
      assert t.seconds[place.second] == s.seconds[place.second];
    }
  }

  lemma BeginKeeps(s: State, e: Event)
    requires Inv(s) && Enabled(s, e) && !e.Advance?
    ensures Inv(Next(s, e))
  {
    BeginKeepsExact(s, e);
    BeginKeepsCalls(s, e);
    hide Exact, CallsInv;
  }

  lemma BeginKeepsExact(s: State, e: Event)
    requires Exact(s) && Enabled(s, e) && !e.Advance?
    ensures Exact(Next(s, e))
  {
    var t := Next(s, e);
    var x := t.calls[|s.calls|];
    assert t.calls == s.calls + [x];
    hide Program, Performed, Sum;
    forall place, field ensures Value(t, place, field) == Sum(t.calls, Performed(place, field)) {
      SumAppend(s.calls, x, Performed(place, field));
      NothingPerformed(x, place, field);
      assert Value(s, place, field) == Sum(s.calls, Performed(place, field));
    }
  }

  lemma BeginKeepsCalls(s: State, e: Event)
    requires CallsInv(s) && Enabled(s, e) && !e.Advance?
    ensures CallsInv(Next(s, e))
  {
    hide Program, Before;
    var t := Next(s, e);
    forall j | 0 <= j < |t.calls| ensures HoldsBucket(t, t.calls[j]) {
      if j < |s.calls| {
        assert HoldsBucket(s, s.calls[j]);
      }
    }
  }

  lemma NothingPerformed(c: Call, place: Place, field: Field)
    requires c.pc == 0
    ensures Performed(place, field)(c) == 0
  {
    hide Program;
    assert Program(c)[..0] == [];
  }

  lemma StepKeepsInv(s: State, e: Event)
    requires Inv(s) && Enabled(s, e)
    ensures Inv(Next(s, e)) && s.seconds <= Next(s, e).seconds
  {
    if !e.Advance? {
      BeginKeeps(s, e);
    } else if Program(s.calls[e.call])[s.calls[e.call].pc].Add? {
      AddKeepsExact(s, e.call);
      AddKeepsRest(s, e.call);
    } else {
      LocateKeeps(s, e.call);
    }
    hide Program, LocateStep, SeriesInv, CallsInv, Exact;
  }

  lemma {:induction false} RunKeepsInv(s: State, events: seq<Event>, t: State)
    requires Inv(s) && Executes(s, events, t)
    ensures Inv(t) && s.seconds <= t.seconds
    decreases |events|
  {
    if events != [] {
      StepKeepsInv(s, events[0]);
      RunKeepsInv(Next(s, events[0]), events[1..], t);
    }
  }

  // ----- main results

  /** Concurrent growth never loses or moves a bucket: the series read later
      begins with the series read earlier. */
  lemma SeriesOnlyGrows(s: State, events: seq<Event>, t: State, more: seq<Event>, u: State)
    requires Initial(s) && Executes(s, events, t) && Executes(t, more, u)
    ensures t.seconds <= u.seconds
  {
    RunKeepsInv(s, events, t);
    RunKeepsInv(t, more, u);
  }

  ghost predicate Quiescent(s: State) {
    forall k :: 0 <= k < |s.calls| ==> Finished(s.calls[k])
  }

  /** How much a finished call adds to a field of each accumulator it touches. */
  function Weight(filing: Filing, field: Field): int {
    match filing
    case SentFiling => if field == Sent then 1 else 0
    case DoneFiling(key, ok, timeout) =>
      match field
      case Sent => 0
      case Completed => 1
      case Samples => 1
      case Class(k) => if k == key then 1 else 0
      case Success => if ok then 1 else 0
      case Failure => if ok then 0 else 1
      case Timeouts => if !ok && timeout then 1 else 0
  }

  /** The fields the per-second rows have. */
  predicate InSeries(field: Field) {
    !field.Samples? && !field.Class?
  }

  lemma MarksWeight(at: Place, filing: Filing, detailed: bool, place: Place, field: Field)
    ensures multiset(Marks(at, filing, detailed))[Add(place, field)] ==
            if place == at && (detailed || InSeries(field)) then Weight(filing, field) else 0
  {
    match filing
    case DoneFiling(key, ok, timeout) =>
      DoneWeight(at, key, ok, timeout, detailed, Add(place, field));
      TermsWeight(at, key, ok, timeout, detailed, place, field);
      hide *;
    case SentFiling =>
      SentWeight(at, detailed, place, field);
      hide Marks;
  }

  lemma SentWeight(at: Place, detailed: bool, place: Place, field: Field)
    ensures multiset(Marks(at, SentFiling, detailed))[Add(place, field)] == if place == at && field == Sent then 1 else 0
  {
    OneWeight(at, Sent, true, Add(place, field));
    assert Marks(at, SentFiling, detailed) == [Add(at, Sent)];
  }

  /** The occurrences of x among the additions of a finished attempt. */
  function Terms(at: Place, key: string, ok: bool, timeout: bool, detailed: bool, x: Instr): int {
    (if x == Add(at, Completed) then 1 else 0)
    + (if detailed && (x == Add(at, Samples) || x == Add(at, Class(key))) then 1 else 0)
    + (if x == (if ok then Add(at, Success) else Add(at, Failure)) then 1 else 0)
    + (if !ok && timeout && x == Add(at, Timeouts) then 1 else 0)
  }

  lemma TermsWeight(at: Place, key: string, ok: bool, timeout: bool, detailed: bool, place: Place, field: Field)
    ensures Terms(at, key, ok, timeout, detailed, Add(place, field)) ==
            if place == at && (detailed || InSeries(field)) then Weight(DoneFiling(key, ok, timeout), field) else 0
  {
  }

  /** Each addition occurs in the program of a finished attempt at most once. */
  lemma DoneWeight(at: Place, key: string, ok: bool, timeout: bool, detailed: bool, x: Instr)
    ensures multiset(Marks(at, DoneFiling(key, ok, timeout), detailed))[x] == Terms(at, key, ok, timeout, detailed, x)
  {
    var a := [Add(at, Completed)];
    var b := if detailed then [Add(at, Samples), Add(at, Class(key))] else [];
    var c := if ok then [Add(at, Success)] else [Add(at, Failure)];
    var d := if !ok && timeout then [Add(at, Timeouts)] else [];
    assert Marks(at, DoneFiling(key, ok, timeout), detailed) == a + b + c + d;
    hide Marks;
    MultisetOfFour(a, b, c, d);
    OneWeight(at, Completed, true, x);
    DetailWeight(at, key, detailed, x);
    OneWeight(at, if ok then Success else Failure, true, x);
    OneWeight(at, Timeouts, !ok && timeout, x);
  }

  lemma MultisetOfFour(a: seq<Instr>, b: seq<Instr>, c: seq<Instr>, d: seq<Instr>)
    ensures multiset(a + b + c + d) == multiset(a) + multiset(b) + multiset(c) + multiset(d)
  {
  }

  lemma OneWeight(at: Place, field: Field, present: bool, x: Instr)
    ensures multiset(if present then [Add(at, field)] else [])[x] == if present && x == Add(at, field) then 1 else 0
  {
  }

  lemma DetailWeight(at: Place, key: string, detailed: bool, x: Instr)
    ensures multiset(if detailed then [Add(at, Samples), Add(at, Class(key))] else [])[x] ==
            if detailed && (x == Add(at, Samples) || x == Add(at, Class(key))) then 1 else 0
  {
    if detailed {
      assert [Add(at, Samples), Add(at, Class(key))] == [Add(at, Samples)] + [Add(at, Class(key))];
      assert multiset([Add(at, Samples)] + [Add(at, Class(key))]) ==
             multiset([Add(at, Samples)]) + multiset([Add(at, Class(key))]);
    }
  }

  /** A finished call has added its weight once to its stage, once to the run
      and once to its second. */
  lemma FinishedPerformed(c: Call, place: Place, field: Field)
    requires c.pc == |Program(c)|
    ensures Performed(place, field)(c) ==
            match place
            case StageOf(i) => if i == c.stage then Weight(c.filing, field) else 0
            case Overall => Weight(c.filing, field)
            case SecondOf(i) => if i == c.second && InSeries(field) then Weight(c.filing, field) else 0
  {
    var x := Marks(StageOf(c.stage), c.filing, true);
    var y := Marks(Overall, c.filing, true);
    var z := Marks(SecondOf(c.second), c.filing, false);
    assert Program(c)[..c.pc] == x + y + [Locate] + z;
    assert multiset(x + y + [Locate] + z) == multiset(x) + multiset(y) + multiset([Locate]) + multiset(z);
    MarksWeight(StageOf(c.stage), c.filing, true, place, field);
    MarksWeight(Overall, c.filing, true, place, field);
    MarksWeight(SecondOf(c.second), c.filing, false, place, field);
  }

  /** The i-th accumulator of a breakdown of the run, by second or by stage. */
  function Part(bySecond: bool, i: nat): Place {
    if bySecond then SecondOf(i) else StageOf(i)
  }

  function PartOf(bySecond: bool, c: Call): nat {
    if bySecond then c.second else c.stage
  }

  function PartValue(s: State, bySecond: bool, field: Field): int -> int {
    (i: int) => if i < 0 then 0 else Value(s, Part(bySecond, i), field)
  }

  function PartPerformed(bySecond: bool, field: Field): int -> (Call -> int) {
    (i: int) => Performed(Part(bySecond, if i < 0 then 0 else i), field)
  }

  /** What one finished call added to the parts is what it added to the run. */
  lemma PartsOfCall(c: Call, bySecond: bool, n: nat, field: Field)
    requires c.pc == |Program(c)| && PartOf(bySecond, c) < n && (bySecond ==> InSeries(field))
    ensures Performed(Overall, field)(c) == SumTo(n, i => PartPerformed(bySecond, field)(i)(c))
  {
    var parts := i => PartPerformed(bySecond, field)(i)(c);
    FinishedPerformed(c, Overall, field);
    forall i | 0 <= i < n
      ensures parts(i) == if i == PartOf(bySecond, c) then Weight(c.filing, field) else 0
    {
      FinishedPerformed(c, Part(bySecond, i), field);
      assert PartPerformed(bySecond, field)(i) == Performed(Part(bySecond, i), field);
      hide Performed, Program;
    }
    hide Performed, Weight;
    SumToIndicator(n, parts, PartOf(bySecond, c), Weight(c.filing, field));
  }

  lemma PartsSumToOverall(s: State, bySecond: bool, n: nat, field: Field)
    requires Inv(s) && Quiescent(s) && (bySecond ==> InSeries(field))
    requires forall k :: 0 <= k < |s.calls| ==> PartOf(bySecond, s.calls[k]) < n
    ensures SumTo(n, PartValue(s, bySecond, field)) == Value(s, Overall, field)
  {
    forall k | 0 <= k < |s.calls|
      ensures Performed(Overall, field)(s.calls[k]) == SumTo(n, i => PartPerformed(bySecond, field)(i)(s.calls[k]))
    {
      assert HoldsBucket(s, s.calls[k]) && Finished(s.calls[k]);
      PartsOfCall(s.calls[k], bySecond, n, field);
      SumToCongruent(
        n, i => PartPerformed(bySecond, field)(i)(s.calls[k]), i => PartPerformed(bySecond, field)(i)(s.calls[k]));
    }
    hide Performed, Value, Sum, SumTo, Program;
    forall i | 0 <= i < n ensures PartValue(s, bySecond, field)(i) == Sum(s.calls, PartPerformed(bySecond, field)(i)) {
      assert Value(s, Part(bySecond, i), field) == Sum(s.calls, Performed(Part(bySecond, i), field));
    }
    SumExchange(
      n, s.calls, PartPerformed(bySecond, field), PartValue(s, bySecond, field), Performed(Overall, field));
    assert Value(s, Overall, field) == Sum(s.calls, Performed(Overall, field));
  }

  /** Whenever no record call is in progress, the per-second rows add up to the
      totals of the run: nothing is counted twice, or in no second. */
  lemma SecondsSumToOverall(s: State, events: seq<Event>, t: State, field: Field)
    requires Initial(s) && Executes(s, events, t) && Quiescent(t) && InSeries(field)
    ensures SumTo(|t.seconds|, PartValue(t, true, field)) == Value(t, Overall, field)
  {
    RunKeepsInv(s, events, t);
    forall k | 0 <= k < |t.calls| ensures t.calls[k].second < |t.seconds| {
      assert HoldsBucket(t, t.calls[k]) && Finished(t.calls[k]);
    }
    PartsSumToOverall(t, true, |t.seconds|, field);
  }

  /** ... and so do the stages, for every field, error classes included. */
  lemma StagesSumToOverall(s: State, events: seq<Event>, t: State, stages: nat, field: Field)
    requires Initial(s) && Executes(s, events, t) && Quiescent(t)
    requires forall k :: 0 <= k < |t.calls| ==> t.calls[k].stage < stages
    ensures SumTo(stages, PartValue(t, false, field)) == Value(t, Overall, field)
  {
    RunKeepsInv(s, events, t);
    PartsSumToOverall(t, false, stages, field);
  }

  /** Every finished attempt is one success or one failure. */
  lemma VerdictsAddUp(s: State, events: seq<Event>, t: State)
    requires Initial(s) && Executes(s, events, t) && Quiescent(t)
    ensures Value(t, Overall, Success) + Value(t, Overall, Failure) ==
            Value(t, Overall, Completed) == Value(t, Overall, Samples)
    ensures Value(t, Overall, Timeouts) <= Value(t, Overall, Failure)
  {
    RunKeepsInv(s, events, t);
    forall k | 0 <= k < |t.calls|
      ensures Performed(Overall, Completed)(t.calls[k]) ==
              Performed(Overall, Success)(t.calls[k]) + Performed(Overall, Failure)(t.calls[k])
      ensures Performed(Overall, Completed)(t.calls[k]) == Performed(Overall, Samples)(t.calls[k])
      ensures Performed(Overall, Timeouts)(t.calls[k]) <= Performed(Overall, Failure)(t.calls[k])
    {
      assert HoldsBucket(t, t.calls[k]) && Finished(t.calls[k]);
      CallAddsUp(t.calls[k]);
    }
    hide Performed, Value, Sum, Executes;
    SumAdd(t.calls, Performed(Overall, Success), Performed(Overall, Failure), Performed(Overall, Completed));
    SumCongruent(t.calls, Performed(Overall, Completed), Performed(Overall, Samples));
    SumMonotone(t.calls, Performed(Overall, Timeouts), Performed(Overall, Failure));
    assert Value(t, Overall, Success) == Sum(t.calls, Performed(Overall, Success));
    assert Value(t, Overall, Failure) == Sum(t.calls, Performed(Overall, Failure));
    assert Value(t, Overall, Completed) == Sum(t.calls, Performed(Overall, Completed));
    assert Value(t, Overall, Samples) == Sum(t.calls, Performed(Overall, Samples));
    assert Value(t, Overall, Timeouts) == Sum(t.calls, Performed(Overall, Timeouts));
  }

  lemma CallAddsUp(c: Call)
    requires c.pc == |Program(c)|
    ensures Performed(Overall, Completed)(c) == Performed(Overall, Success)(c) + Performed(Overall, Failure)(c)
    ensures Performed(Overall, Completed)(c) == Performed(Overall, Samples)(c)
    ensures Performed(Overall, Timeouts)(c) <= Performed(Overall, Failure)(c)
  {
    hide Performed, Program;
    FinishedPerformed(c, Overall, Completed);
    FinishedPerformed(c, Overall, Success);
    FinishedPerformed(c, Overall, Failure);
    FinishedPerformed(c, Overall, Samples);
    FinishedPerformed(c, Overall, Timeouts);
  }

  // ----- what is read is what was filed

  /** What one filing is worth to a field of an accumulator, once it is done: its
      own stage, the whole run and its own second count it, and no other. */
  function Amount(place: Place, field: Field): Event -> int {
    (e: Event) =>
      match e
      case Advance(_) => 0
      case RecordSent(stage, second) =>
        if place in {Overall, StageOf(stage), SecondOf(second)} && field == Sent then 1 else 0
      case Record(stage, second, key, ok, timeout) =>
        if place == Overall || place == StageOf(stage) then
          if field in {Completed, Samples, Class(key)} || (ok && field == Success) || (!ok && field == Failure)
             || (!ok && timeout && field == Timeouts) then 1 else 0
        else if place == SecondOf(second) then
          if field == Completed || (ok && field == Success) || (!ok && field == Failure)
             || (!ok && timeout && field == Timeouts) then 1 else 0
        else 0
  }

  /** What a call will have added when it finishes. */
  function Due(place: Place, field: Field): Call -> int {
    (c: Call) => Amount(place, field)(
      match c.filing
      case SentFiling => RecordSent(c.stage, c.second)
      case DoneFiling(key, ok, timeout) => Record(c.stage, c.second, key, ok, timeout))
  }

  lemma StepFiles(s: State, e: Event, place: Place, field: Field)
    requires Enabled(s, e)
    ensures Sum(Next(s, e).calls, Due(place, field)) == Sum(s.calls, Due(place, field)) + Amount(place, field)(e)
  {
    var t := Next(s, e);
    if e.Advance? {
      SumUpdate(s.calls, e.call, t.calls[e.call], Due(place, field));
    } else {
      SumAppend(s.calls, t.calls[|s.calls|], Due(place, field));
    }
  }

  lemma {:induction false} RunFiles(s: State, events: seq<Event>, t: State, place: Place, field: Field)
    requires Executes(s, events, t)
    ensures Sum(t.calls, Due(place, field)) == Sum(s.calls, Due(place, field)) + Sum(events, Amount(place, field))
    decreases |events|
  {
    if events != [] {
      hide Next, Due, Amount, Sum;
      StepFiles(s, events[0], place, field);
      RunFiles(Next(s, events[0]), events[1..], t, place, field);
      SumFirst(events, Amount(place, field));
    }
  }

  lemma DueIsPerformed(c: Call, place: Place, field: Field)
    requires c.pc == |Program(c)|
    ensures Performed(place, field)(c) == Due(place, field)(c)
  {
    hide Performed, Program;
    FinishedPerformed(c, place, field);
  }

  /** Whenever no record call is in progress, every counter of every stage, of the
      run and of every second reads exactly the number of filings of its kind,
      however their additions were interleaved. */
  lemma EveryFilingCounted(s: State, events: seq<Event>, t: State, place: Place, field: Field)
    requires Initial(s) && Executes(s, events, t) && Quiescent(t)
    ensures Value(t, place, field) == Sum(events, Amount(place, field))
  {
    RunKeepsInv(s, events, t);
    hide Performed, Value, Amount, Program, Sum;
    RunFiles(s, events, t, place, field);
    forall k | 0 <= k < |t.calls| ensures Performed(place, field)(t.calls[k]) == Due(place, field)(t.calls[k]) {
      assert HoldsBucket(t, t.calls[k]) && Finished(t.calls[k]);
      DueIsPerformed(t.calls[k], place, field);
    }
    SumCongruent(t.calls, Performed(place, field), Due(place, field));
    assert Value(t, place, field) == Sum(t.calls, Performed(place, field));
    NoCalls(place, field);
  }

  lemma NoCalls(place: Place, field: Field)
    ensures Sum([], Due(place, field)) == 0
  {
  }
}
