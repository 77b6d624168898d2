/** The digest state every worker shares: the challenge, the cached credential
    hash and the nonce counter. First as an object used by one caller at a
    time, then under every interleaving of its lock sections.
 */
module DigestState {
  import opened Common
  import opened DigestText
  import opened DigestHeader
  import opened DigestExchange

  const NO_CHALLENGE := Challenge("", "", "", "", "")

  class DigestState {
    const hashes: Hashes
    const account: Account
    var challenge: Challenge
    var ha1: string
    var ha1Realm: string
    var ha1Algo: string
    var nc: nat

    /** A cached hash is the hash for the realm and algorithm it is filed
        under. */
    ghost predicate Valid()
      reads this
    {
      ha1 != "" ==> ha1 == Ha1(hashes, account, ha1Realm, ha1Algo)
    }

    /** The hash on hand is the one for the shared challenge. */
    ghost predicate Primed()
      reads this
    {
      challenge.nonce != "" && ha1 == Ha1(hashes, account, challenge.realm, challenge.algorithm)
    }

    constructor (hashes: Hashes, account: Account)
      ensures Valid() && !HasChallenge() && nc == 0
      ensures this.hashes == hashes && this.account == account
    {
      this.hashes := hashes;
      this.account := account;
      challenge := NO_CHALLENGE;
      ha1, ha1Realm, ha1Algo := "", "", "";
      nc := 0;
    }

    predicate HasChallenge()
      reads this
    {
      challenge.nonce != ""
    }

    /** A header that cannot be answered changes nothing; one that can starts a
        new count. */
    method SetChallenge(header: string) returns (r: Result<Challenge>)
      requires Valid()
      modifies this
      ensures Valid() && r == ParseChallenge(header)
      ensures r.Err? ==> challenge == old(challenge) && ha1 == old(ha1) && nc == old(nc)
                         && ha1Realm == old(ha1Realm) && ha1Algo == old(ha1Algo)
      ensures r.Ok? ==> challenge == r.value && nc == 0 && (challenge.nonce != "" ==> Primed())
    {
      hide ParseChallenge, Ha1;
      r := ParseChallenge(header);
      if r.Ok? {
        var c := r.value;
        challenge := c;
        ha1 := Ha1(hashes, account, c.realm, c.algorithm);
        ha1Realm, ha1Algo := c.realm, c.algorithm;
        nc := 0;
      }
    }

    /** The shared mode: without a challenge nothing is sent, with one the next
        count is spent, and once primed the header is the one the password
        itself would give. */
    method ApplyDigest(verb: string, uri: string, cnonce: string) returns (header: Option<string>)
      requires Valid()
      modifies this`nc
      ensures Valid()
      ensures header.None? <==> !HasChallenge()
      ensures nc == if header.None? then old(nc) else old(nc) + 1
      ensures header.Some? && Primed() ==>
                header.value == Header(hashes, account, challenge, Ha1(hashes, account, challenge.realm, challenge.algorithm),
                                       verb, uri, NonceCount(nc), cnonce)
      ensures header.Some? ==> header.value == Header(hashes, account, challenge, ha1, verb, uri, NonceCount(nc), cnonce)
    {
      hide Header, Ha1;
      if challenge.nonce == "" {
        return None;
      }
      nc := nc + 1;
      return Some(Header(hashes, account, challenge, ha1, verb, uri, NonceCount(nc), cnonce));
    }

    /** Cached or not, what is returned is the hash for this challenge. */
    method Ha1For(c: Challenge) returns (r: string)
      requires Valid()
      modifies this`ha1, this`ha1Realm, this`ha1Algo
      ensures Valid() && r == Ha1(hashes, account, c.realm, c.algorithm)
      ensures old(ha1) != "" && old(ha1Realm) == c.realm && old(ha1Algo) == c.algorithm ==> unchanged(this)
      ensures ha1 == r && ha1Realm == c.realm && ha1Algo == c.algorithm
    {
      hide Ha1;
      if ha1 != "" && ha1Realm == c.realm && ha1Algo == c.algorithm {
        return ha1;
      }
      r := Ha1(hashes, account, c.realm, c.algorithm);
      ha1, ha1Realm, ha1Algo := r, c.realm, c.algorithm;
    }

    /** The per-request mode: the header depends on the challenge alone, not on
        anything held here, and the shared challenge and count stay as they are. */
    method AuthorizeOnce(challengeText: string, verb: string, uri: string, cnonce: string) returns (r: Result<string>)
      requires Valid()
      modifies this`ha1, this`ha1Realm, this`ha1Algo
      ensures Valid()
      ensures r.Ok? <==> ParseChallenge(challengeText).Ok?
      ensures r.Ok? ==>
                var c := ParseChallenge(challengeText).value;
                r.value == Header(hashes, account, c, Ha1(hashes, account, c.realm, c.algorithm), verb, uri, "00000001", cnonce)
      ensures r.Err? ==> r.message == ParseChallenge(challengeText).message && unchanged(this)
    {
      hide Header, Ha1, ParseChallenge;
      var parsed := ParseChallenge(challengeText);
      if parsed.Err? {
        return Err(parsed.message);
      }
      var ha1 := Ha1For(parsed.value);
      return Ok(Header(hashes, account, parsed.value, ha1, verb, uri, "00000001", cnonce));
    }
  }
}

module DigestRace {
  import opened DigestHeader
  import opened DigestState

  /** Whose account, and which hashes. */
  datatype Setup = Setup(hashes: Hashes, account: Account)

  function HashFor(u: Setup, c: Challenge): string {
    Ha1(u.hashes, u.account, c.realm, c.algorithm)
  }

  /** Where a worker stands: between calls; in applyDigest, holding a copy of
      what it read after that many installations; or in ha1For, past a miss. */
  datatype Worker = Ready | Holding(challenge: Challenge, ha1: string, readAt: nat, mixed: bool) | Computing(challenge: Challenge)

  /** One count drawn: the challenge and hash it was printed with, the number of
      installations when these were read and when the count was drawn. */
  datatype Draw = Draw(challenge: Challenge, ha1: string, readAt: nat, mixed: bool, drawnAt: nat, count: nat)

  datatype Answer = Answer(challenge: Challenge, ha1: string)

  /** SetChallenge holds the lock over two steps: the fields, then the counter.
      mixed says that a miss in ha1For has replaced the shared hash by one for
      another realm or algorithm. */
  datatype State = State(
    challenge: Challenge, ha1: string, ha1Realm: string, ha1Algo: string, nc: nat,
    installed: seq<Challenge>, installing: bool,
    workers: seq<Worker>, draws: seq<Draw>, answers: seq<Answer>, mixed: bool)

  datatype Event =
    | Spawn
    | BeginInstall(challenge: Challenge)
    | EndInstall
    | ReadShared(worker: nat)
    | AddCount(worker: nat)
    | LookUp(worker: nat, challenge: Challenge)
    | StoreHa1(worker: nat)

  const START := State(NO_CHALLENGE, "", "", "", 0, [], false, [], [], [], false)

  /** How often the counter has been reset. */
  function Resets(s: State): nat
    requires s.installing ==> s.installed != []
  {
    |s.installed| - if s.installing then 1 else 0
  }

  predicate Enabled(s: State, e: Event) {
    match e
    case Spawn => true
    case BeginInstall(_) => !s.installing
    case EndInstall => s.installing
    case ReadShared(w) => w < |s.workers| && s.workers[w].Ready? && !s.installing
    case AddCount(w) => w < |s.workers| && s.workers[w].Holding? && (s.installing ==> s.installed != [])
    case LookUp(w, _) => w < |s.workers| && s.workers[w].Ready? && !s.installing
    case StoreHa1(w) => w < |s.workers| && s.workers[w].Computing? && !s.installing
  }

  function Next(u: Setup, s: State, e: Event): State
    requires Enabled(s, e)
  {
    match e
    case Spawn => s.(workers := s.workers + [Ready])
    case BeginInstall(c) =>
      s.(challenge := c, ha1 := HashFor(u, c), ha1Realm := c.realm, ha1Algo := c.algorithm,
         installed := s.installed + [c], installing := true, mixed := false)
    case EndInstall => s.(nc := 0, installing := false)
    case ReadShared(w) =>
      if s.challenge.nonce == "" then s
      else s.(workers := s.workers[w := Holding(s.challenge, s.ha1, |s.installed|, s.mixed)])
    case AddCount(w) =>
      var held := s.workers[w];
      s.(nc := s.nc + 1, workers := s.workers[w := Ready],
         draws := s.draws + [Draw(held.challenge, held.ha1, held.readAt, held.mixed, Resets(s), s.nc + 1)])
    case LookUp(w, c) =>
      if s.ha1 != "" && s.ha1Realm == c.realm && s.ha1Algo == c.algorithm then
        s.(answers := s.answers + [Answer(c, s.ha1)])
      else
        s.(workers := s.workers[w := Computing(c)])
    case StoreHa1(w) =>
      var c := s.workers[w].challenge;
      s.(ha1 := HashFor(u, c), ha1Realm := c.realm, ha1Algo := c.algorithm, workers := s.workers[w := Ready],
         answers := s.answers + [Answer(c, HashFor(u, c))],
         mixed := s.mixed || c.realm != s.challenge.realm || c.algorithm != s.challenge.algorithm)
  }

  ghost predicate Executes(u: Setup, s: State, events: seq<Event>, t: State)
    decreases |events|
  {
    if events == [] then s == t
    else Enabled(s, events[0]) && Executes(u, Next(u, s, events[0]), events[1..], t)
  }

  // ----- the cached hash

  ghost predicate CacheSound(u: Setup, s: State) {
    && (s.ha1 != "" ==> s.ha1 == Ha1(u.hashes, u.account, s.ha1Realm, s.ha1Algo))
    && (forall i :: 0 <= i < |s.answers| ==> s.answers[i].ha1 == HashFor(u, s.answers[i].challenge))
  }

  lemma CacheSoundKept(u: Setup, s: State, e: Event)
    requires CacheSound(u, s) && Enabled(s, e)
    ensures CacheSound(u, Next(u, s, e))
  {
    hide Ha1;
  }

  // ----- what each draw was printed with

  ghost predicate SharedSound(u: Setup, s: State) {
    && (!s.mixed && s.challenge.nonce != "" ==> s.ha1 == HashFor(u, s.challenge))
    && (forall w :: 0 <= w < |s.workers| && s.workers[w].Holding? && !s.workers[w].mixed ==>
          s.workers[w].ha1 == HashFor(u, s.workers[w].challenge))
    && (forall i :: 0 <= i < |s.draws| && !s.draws[i].mixed ==> s.draws[i].ha1 == HashFor(u, s.draws[i].challenge))
  }

  lemma SharedSoundKept(u: Setup, s: State, e: Event)
    requires SharedSound(u, s) && Enabled(s, e)
    ensures SharedSound(u, Next(u, s, e))
  {
    hide Resets;
  }

  /** What a worker holds is the installation it read. */
  ghost predicate ReadsInstalled(s: State) {
    && (s.installing ==> s.installed != [])
    && (s.challenge.nonce != "" ==> s.installed != [] && s.challenge == s.installed[|s.installed| - 1])
    && (forall w :: 0 <= w < |s.workers| && s.workers[w].Holding? ==>
          1 <= s.workers[w].readAt <= Resets(s) && s.workers[w].challenge == s.installed[s.workers[w].readAt - 1])
    && (forall i :: 0 <= i < |s.draws| ==>
          && 1 <= s.draws[i].readAt <= s.draws[i].drawnAt <= Resets(s)
          && s.draws[i].challenge == s.installed[s.draws[i].readAt - 1])
  }

  lemma ReadsInstalledKept(u: Setup, s: State, e: Event)
    requires ReadsInstalled(s) && Enabled(s, e)
    ensures ReadsInstalled(Next(u, s, e))
  {
    hide HashFor;
  }

  // ----- counting

  /** The counts drawn between one reset of the counter and the next, in order. */
  function CountsIn(draws: seq<Draw>, reset: nat): seq<nat> {
    if draws == [] then []
    else
      var last := draws[|draws| - 1];
      CountsIn(draws[..|draws| - 1], reset) + if last.drawnAt == reset then [last.count] else []
  }

  function UpTo(k: nat): (s: seq<nat>)
    ensures |s| == k && forall i :: 0 <= i < k ==> s[i] == i + 1
  {
    seq(k, i requires 0 <= i < k => i + 1)
  }

  ghost predicate Counted(s: State) {
    && (s.installing ==> s.installed != [])
    && CountsIn(s.draws, Resets(s)) == UpTo(s.nc)
    && forall reset :: 0 <= reset ==>
         CountsIn(s.draws, reset) == UpTo(|CountsIn(s.draws, reset)|) && (reset > Resets(s) ==> CountsIn(s.draws, reset) == [])
  }

  lemma CountsInAppend(draws: seq<Draw>, d: Draw, reset: nat)
    ensures CountsIn(draws + [d], reset) == CountsIn(draws, reset) + if d.drawnAt == reset then [d.count] else []
  {
    assert (draws + [d])[..|draws|] == draws;
  }

  lemma CountedKept(u: Setup, s: State, e: Event)
    requires Counted(s) && Enabled(s, e)
    ensures Counted(Next(u, s, e))
  {
    hide HashFor, UpTo, CountsIn;
    if e.AddCount? {
      AddCounted(s, Next(u, s, e).draws[|s.draws|]);
    } else if e.EndInstall? {
      assert UpTo(0) == [];
    }
  }

  lemma AddCounted(s: State, d: Draw)
    requires Counted(s) && d.drawnAt == Resets(s) && d.count == s.nc + 1
    ensures Counted(s.(nc := s.nc + 1, draws := s.draws + [d]))
  {
    hide UpTo, CountsIn;
    forall reset: nat { CountsInAppend(s.draws, d, reset); }
    assert UpTo(s.nc) + [s.nc + 1] == UpTo(s.nc + 1);
  }

  // ----- whole runs

  ghost predicate Inv(u: Setup, s: State) {
    CacheSound(u, s) && SharedSound(u, s) && ReadsInstalled(s) && Counted(s)
  }

  lemma {:induction false} RunKeepsInv(u: Setup, s: State, events: seq<Event>, t: State)
    requires Inv(u, s) && Executes(u, s, events, t)
    ensures Inv(u, t)
    decreases |events|
  {
    hide CacheSound, SharedSound, ReadsInstalled, Counted, Enabled, Next;
    if events != [] {
      CacheSoundKept(u, s, events[0]);
      SharedSoundKept(u, s, events[0]);
      ReadsInstalledKept(u, s, events[0]);
      CountedKept(u, s, events[0]);
      RunKeepsInv(u, Next(u, s, events[0]), events[1..], t);
    }
  }

  lemma StartsWell(u: Setup)
    ensures Inv(u, START)
  {
    assert UpTo(0) == [];
  }

  /** In every interleaving a cached hash is the hash for what it is filed
      under, and whatever ha1For returned was the hash for its own challenge. */
  lemma CacheNeverMisleads(u: Setup, events: seq<Event>, t: State)
    requires Executes(u, START, events, t)
    ensures t.ha1 != "" ==> t.ha1 == Ha1(u.hashes, u.account, t.ha1Realm, t.ha1Algo)
    ensures forall i :: 0 <= i < |t.answers| ==> t.answers[i].ha1 == HashFor(u, t.answers[i].challenge)
  {
    hide SharedSound, ReadsInstalled, Counted, HashFor, Ha1;
    StartsWell(u);
    RunKeepsInv(u, START, events, t);
  }

  /** Between one reset of the counter and the next the counts drawn are
      1, 2, ..., k, each once and in order. */
  lemma CountsHaveNoGapOrRepeat(u: Setup, events: seq<Event>, t: State, reset: nat)
    requires Executes(u, START, events, t)
    ensures CountsIn(t.draws, reset) == UpTo(|CountsIn(t.draws, reset)|)
  {
    hide CacheSound, SharedSound, ReadsInstalled;
    StartsWell(u);
    RunKeepsInv(u, START, events, t);
  }

  /** A draw straddles an installation when the counter was reset between its
      reading the challenge and its drawing the count. */
  predicate Straddles(d: Draw) {
    d.readAt != d.drawnAt
  }

  lemma {:induction false} CountsInPrefix(draws: seq<Draw>, i: nat, j: nat, reset: nat)
    requires i <= j <= |draws|
    ensures CountsIn(draws[..i], reset) <= CountsIn(draws[..j], reset)
    decreases j
  {
    if i < j {
      CountsInPrefix(draws, i, j - 1, reset);
      assert draws[..j][..j - 1] == draws[..j - 1];
    }
  }

  /** A draw's count is one more than the draws made before it since the same
      reset. */
  lemma CountIsPosition(draws: seq<Draw>, i: nat, reset: nat)
    requires i < |draws| && draws[i].drawnAt == reset
    requires CountsIn(draws, reset) == UpTo(|CountsIn(draws, reset)|)
    ensures draws[i].count == |CountsIn(draws[..i], reset)| + 1
  {
    assert draws[..i + 1][..i] == draws[..i];
    assert CountsIn(draws[..i + 1], reset) == CountsIn(draws[..i], reset) + [draws[i].count];
    CountsInPrefix(draws, i + 1, |draws|, reset);
    assert draws[..|draws|] == draws;
    assert CountsIn(draws, reset)[|CountsIn(draws[..i], reset)|] == draws[i].count;
  }

  lemma SameResetDiffer(draws: seq<Draw>, i: nat, j: nat)
    requires i < j < |draws| && draws[i].drawnAt == draws[j].drawnAt
    requires CountsIn(draws, draws[i].drawnAt) == UpTo(|CountsIn(draws, draws[i].drawnAt)|)
    ensures draws[i].count < draws[j].count
  {
    var r := draws[i].drawnAt;
    CountIsPosition(draws, i, r);
    CountIsPosition(draws, j, r);
    CountsInPrefix(draws, i + 1, j, r);
    assert draws[..i + 1][..i] == draws[..i];
  }

  /** What must not be sent twice. */
  function Pair(d: Draw): (string, nat) {
    (d.challenge.nonce, d.count)
  }

  /** In any run, two draws send one pair if and only if they answer one nonce
      and stand at the same place after different resets of the counter. */
  lemma PairRepeats(u: Setup, events: seq<Event>, t: State, i: nat, j: nat)
    requires Executes(u, START, events, t) && i < j < |t.draws|
    ensures var d, e := t.draws[i], t.draws[j];
            Pair(d) == Pair(e) <==>
            && d.challenge.nonce == e.challenge.nonce && d.drawnAt != e.drawnAt
            && |CountsIn(t.draws[..i], d.drawnAt)| == |CountsIn(t.draws[..j], e.drawnAt)|
  {
    hide CacheSound, SharedSound, ReadsInstalled, HashFor, Executes;
    StartsWell(u);
    RunKeepsInv(u, START, events, t);
    CountIsPosition(t.draws, i, t.draws[i].drawnAt);
    CountIsPosition(t.draws, j, t.draws[j].drawnAt);
    if t.draws[i].drawnAt == t.draws[j].drawnAt {
      SameResetDiffer(t.draws, i, j);
    }
  }

  ghost predicate PairsDiffer(draws: seq<Draw>) {
    forall i, j :: 0 <= i < j < |draws| ==> Pair(draws[i]) != Pair(draws[j])
  }

  /** Of several installations of one nonce, at most one was drawn from. */
  ghost predicate NoncesDrawnOnce(s: State) {
    forall m, n :: 1 <= m < n <= |s.installed| && s.installed[m - 1].nonce == s.installed[n - 1].nonce ==>
                     CountsIn(s.draws, m) == [] || CountsIn(s.draws, n) == []
  }

  /** When every count is drawn during the installation that was read, no pair is
      sent twice if and only if no nonce is installed again between draws: a
      worker that installs a stale nonce's successor after another has done so,
      and drawn, starts its count over. */
  lemma PairsUnique(u: Setup, events: seq<Event>, t: State)
    requires Executes(u, START, events, t)
    requires forall i :: 0 <= i < |t.draws| ==> !Straddles(t.draws[i])
    ensures PairsDiffer(t.draws) <==> NoncesDrawnOnce(t)
  {
    hide CacheSound, SharedSound, HashFor, Executes, PairsDiffer, NoncesDrawnOnce;
    StartsWell(u);
    RunKeepsInv(u, START, events, t);
    if PairsDiffer(t.draws) {
      DifferMeansOnce(t);
    }
    if NoncesDrawnOnce(t) {
      OnceMeansDiffer(t);
    }
  }

  lemma DifferMeansOnce(t: State)
    requires ReadsInstalled(t) && Counted(t) && PairsDiffer(t.draws)
    requires forall i :: 0 <= i < |t.draws| ==> !Straddles(t.draws[i])
    ensures NoncesDrawnOnce(t)
  {
    forall m, n | 1 <= m < n <= |t.installed| && CountsIn(t.draws, m) != [] && CountsIn(t.draws, n) != []
      ensures t.installed[m - 1].nonce != t.installed[n - 1].nonce
    {
      var i := FirstDraw(t.draws, m);
      var j := FirstDraw(t.draws, n);
      CountIsPosition(t.draws, i, m);
      CountIsPosition(t.draws, j, n);
      assert Pair(t.draws[i]) == (t.installed[m - 1].nonce, 1) && Pair(t.draws[j]) == (t.installed[n - 1].nonce, 1);
      assert if i < j then Pair(t.draws[i]) != Pair(t.draws[j]) else Pair(t.draws[j]) != Pair(t.draws[i]);
    }
  }

  lemma {:induction false} FirstDraw(draws: seq<Draw>, reset: nat) returns (i: nat)
    requires CountsIn(draws, reset) != []
    ensures i < |draws| && draws[i].drawnAt == reset && CountsIn(draws[..i], reset) == []
    decreases |draws|
  {
    var before := draws[..|draws| - 1];
    if CountsIn(before, reset) == [] {
      i := |draws| - 1;
    } else {
      i := FirstDraw(before, reset);
      assert draws[..i] == before[..i];
    }
  }

  lemma OnceMeansDiffer(t: State)
    requires ReadsInstalled(t) && Counted(t) && NoncesDrawnOnce(t)
    requires forall i :: 0 <= i < |t.draws| ==> !Straddles(t.draws[i])
    ensures PairsDiffer(t.draws)
  {
    forall i, j | 0 <= i < j < |t.draws| ensures Pair(t.draws[i]) != Pair(t.draws[j]) {
      if t.draws[i].drawnAt == t.draws[j].drawnAt {
        SameResetDiffer(t.draws, i, j);
      } else {
        DrawIsCounted(t.draws, i);
        DrawIsCounted(t.draws, j);
      }
    }
  }

  lemma DrawIsCounted(draws: seq<Draw>, i: nat)
    requires i < |draws|
    ensures CountsIn(draws, draws[i].drawnAt) != []
  {
    var r := draws[i].drawnAt;
    assert draws[..i + 1][..i] == draws[..i] && draws[..|draws|] == draws;
    assert CountsIn(draws[..i + 1], r) == CountsIn(draws[..i], r) + [draws[i].count];
    CountsInPrefix(draws, i + 1, |draws|, r);
  }

  /** Each draw is printed with the hash for its challenge, unless ha1For had
      been called for another realm or algorithm. */
  lemma DrawsCarryTheirHash(u: Setup, events: seq<Event>, t: State, i: nat)
    requires Executes(u, START, events, t) && i < |t.draws|
    ensures !t.draws[i].mixed ==> t.draws[i].ha1 == HashFor(u, t.draws[i].challenge)
  {
    hide CacheSound, HashFor, Executes, ReadsInstalled, Counted;
    StartsWell(u);
    RunKeepsInv(u, START, events, t);
  }

  /** A list of states that follow one another is an execution. */
  lemma {:induction false} Chain(u: Setup, events: seq<Event>, states: seq<State>)
    requires |states| == |events| + 1
    requires forall i :: 0 <= i < |events| ==> Enabled(states[i], events[i]) && states[i + 1] == Next(u, states[i], events[i])
    ensures Executes(u, states[0], events, states[|events|])
    decreases |events|
  {
    hide Enabled, Next;
    if events != [] {
      Chain(u, events[1..], states[1..]);
    }
  }

  /** Two workers have read the first challenge. */
  function BothHold(u: Setup, first: Challenge): State {
    var h := HashFor(u, first);
    var held := Holding(first, h, 1, false);
    State(first, h, first.realm, first.algorithm, 0, [first], false, [held, held], [], [], false)
  }

  /** One of them has drawn under the first challenge, the other under the
      second. */
  function Repeated(u: Setup, first: Challenge, second: Challenge): State {
    var h := HashFor(u, first);
    State(second, HashFor(u, second), second.realm, second.algorithm, 1, [first, second], false, [Ready, Ready],
          [Draw(first, h, 1, false, 1, 1), Draw(first, h, 1, false, 2, 1)], [], false)
  }

  lemma BothRead(u: Setup, first: Challenge)
    requires first.nonce != ""
    ensures Executes(u, START, [Spawn, Spawn, BeginInstall(first), EndInstall, ReadShared(0), ReadShared(1)], BothHold(u, first))
  {
    hide HashFor;
    var h := HashFor(u, first);
    var s1 := START.(workers := [Ready]);
    var s2 := START.(workers := [Ready, Ready]);
    var s3 := s2.(challenge := first, ha1 := h, ha1Realm := first.realm, ha1Algo := first.algorithm,
                  installed := [first], installing := true);
    var s4 := s3.(installing := false);
    var s5 := s4.(workers := [Holding(first, h, 1, false), Ready]);
    Chain(u, [Spawn, Spawn, BeginInstall(first), EndInstall, ReadShared(0), ReadShared(1)],
          [START, s1, s2, s3, s4, s5, BothHold(u, first)]);
  }

  lemma DrawAcross(u: Setup, first: Challenge, second: Challenge)
    ensures Executes(u, BothHold(u, first), [AddCount(1), BeginInstall(second), EndInstall, AddCount(0)], Repeated(u, first, second))
  {
    hide HashFor;
    var h := HashFor(u, first);
    var s1 := BothHold(u, first).(workers := [Holding(first, h, 1, false), Ready], nc := 1,
                                  draws := [Draw(first, h, 1, false, 1, 1)]);
    var s2 := s1.(challenge := second, ha1 := HashFor(u, second), ha1Realm := second.realm, ha1Algo := second.algorithm,
                  installed := [first, second], installing := true);
    var s3 := s2.(installing := false, nc := 0);
    Chain(u, [AddCount(1), BeginInstall(second), EndInstall, AddCount(0)],
          [BothHold(u, first), s1, s2, s3, Repeated(u, first, second)]);
  }

  /** Counts are not unique per nonce: a worker that read the first challenge
      and counts after the second one is installed repeats the pair another
      worker sent. */
  lemma RepeatedPairExample(u: Setup, first: Challenge, second: Challenge)
    requires first.nonce != ""
    ensures exists events, t ::
              && Executes(u, START, events, t) && t.installed == [first, second] && |t.draws| == 2
              && t.draws[0].challenge == t.draws[1].challenge == first && t.draws[0].count == t.draws[1].count == 1
              && !Straddles(t.draws[0]) && Straddles(t.draws[1])
  {
    hide HashFor, Executes, Next, Enabled;
    BothRead(u, first);
    DrawAcross(u, first, second);
    var before := [Spawn, Spawn, BeginInstall(first), EndInstall, ReadShared(0), ReadShared(1)];
    var after := [AddCount(1), BeginInstall(second), EndInstall, AddCount(0)];
    ExecutesConcat(u, START, before, BothHold(u, first), after, Repeated(u, first, second));
    assert Executes(u, START, before + after, Repeated(u, first, second));
  }

  /** One worker has installed the challenge and drawn its first count. */
  function DrawnOnce(u: Setup, c: Challenge): State {
    var h := HashFor(u, c);
    State(c, h, c.realm, c.algorithm, 1, [c], false, [Ready, Ready], [Draw(c, h, 1, false, 1, 1)], [], false)
  }

  /** Another, told of the same stale nonce, has installed it again and drawn. */
  function DrawnAgain(u: Setup, c: Challenge): State {
    var h := HashFor(u, c);
    State(c, h, c.realm, c.algorithm, 1, [c, c], false, [Ready, Ready],
          [Draw(c, h, 1, false, 1, 1), Draw(c, h, 2, false, 2, 1)], [], false)
  }

  lemma DrawsFirst(u: Setup, c: Challenge)
    requires c.nonce != ""
    ensures Executes(u, START, [Spawn, Spawn, BeginInstall(c), EndInstall, ReadShared(0), AddCount(0)], DrawnOnce(u, c))
  {
    hide HashFor;
    var h := HashFor(u, c);
    var s1 := START.(workers := [Ready]);
    var s2 := START.(workers := [Ready, Ready]);
    var s3 := s2.(challenge := c, ha1 := h, ha1Realm := c.realm, ha1Algo := c.algorithm, installed := [c], installing := true);
    var s4 := s3.(installing := false);
    var s5 := s4.(workers := [Holding(c, h, 1, false), Ready]);
    Chain(u, [Spawn, Spawn, BeginInstall(c), EndInstall, ReadShared(0), AddCount(0)],
          [START, s1, s2, s3, s4, s5, DrawnOnce(u, c)]);
  }

  lemma DrawsSecond(u: Setup, c: Challenge)
    requires c.nonce != ""
    ensures Executes(u, DrawnOnce(u, c), [BeginInstall(c), EndInstall, ReadShared(1), AddCount(1)], DrawnAgain(u, c))
  {
    hide HashFor;
    var h := HashFor(u, c);
    var s1 := DrawnOnce(u, c).(installed := [c, c], installing := true);
    var s2 := s1.(installing := false, nc := 0);
    var s3 := s2.(workers := [Ready, Holding(c, h, 2, false)]);
    Chain(u, [BeginInstall(c), EndInstall, ReadShared(1), AddCount(1)], [DrawnOnce(u, c), s1, s2, s3, DrawnAgain(u, c)]);
  }

  /** No draw need straddle anything: two workers that race on one stale nonce
      install the same challenge one after the other, and the second starts the
      count over on a nonce the first has already counted on. */
  lemma ReinstalledPairExample(u: Setup, c: Challenge)
    requires c.nonce != ""
    ensures exists events, t ::
              && Executes(u, START, events, t) && t.installed == [c, c] && |t.draws| == 2
              && Pair(t.draws[0]) == Pair(t.draws[1]) == (c.nonce, 1)
              && !Straddles(t.draws[0]) && !Straddles(t.draws[1]) && !t.draws[0].mixed && !t.draws[1].mixed
  {
    hide HashFor, Executes, Next, Enabled;
    DrawsFirst(u, c);
    DrawsSecond(u, c);
    var before := [Spawn, Spawn, BeginInstall(c), EndInstall, ReadShared(0), AddCount(0)];
    var after := [BeginInstall(c), EndInstall, ReadShared(1), AddCount(1)];
    ExecutesConcat(u, START, before, DrawnOnce(u, c), after, DrawnAgain(u, c));
    assert Executes(u, START, before + after, DrawnAgain(u, c));
  }

  lemma {:induction false} ExecutesConcat(u: Setup, s: State, before: seq<Event>, m: State, after: seq<Event>, t: State)
    requires Executes(u, s, before, m) && Executes(u, m, after, t)
    ensures Executes(u, s, before + after, t)
    decreases |before|
  {
    hide Enabled, Next;
    if before == [] {
      assert before + after == after;
    } else {
      ExecutesConcat(u, Next(u, s, before[0]), before[1..], m, after, t);
      assert (before + after)[1..] == before[1..] + after;
    }
  }
}
