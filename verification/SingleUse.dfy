/** Any number of clients, each drawing its own challenge for each request,
    against a server whose nonces are good for one request of one session.

    A lock section of the server is one step, and so is what a client does
    between hearing the challenge and sending its answer.
 */
module SingleUse {
  import opened Fold
  import opened DigestText
  import opened DigestParams
  import opened DigestHeader
  import opened DigestExchange
  import opened MockSpec

  datatype Setup = Setup(options: Options, source: Source, uri: string)

  /** Who sends: a client of this program; someone resending a request that was
      accepted before; or someone without the credentials. */
  datatype Kind = Client | Copy | Stray

  datatype Pc =
    | Starting
    | Told(challenge: string, cookies: seq<string>)
    | Sent(request: Request, cnonce: string)
    | Refusing(credentials: bool)
    | Answered(accepted: bool)

  /** One exchange. at is how many random values had been drawn when its
      session was issued. */
  datatype Exchange = Exchange(kind: Kind, at: nat, sent: Request, cnonce: string, pc: Pc)

  /** log lists the sessions and nonces that were accepted. */
  datatype State = State(server: Auth, exchanges: seq<Exchange>, log: seq<(string, string)>)

  datatype Event =
    | Begin
    | DrawChallenge(exchange: nat)
    | Answer(exchange: nat, cnonce: string)
    | Resend(exchange: nat)
    | Intrude(request: Request)
    | Arrive(exchange: nat)
    | Refuse(exchange: nat)

  const NOTHING := Request(POST, "", [])

  const START := State(FRESH, [], [])

  /** The request has no matching response, for whatever nonce it names. */
  predicate Unmatched(o: Options, r: Request) {
    Readable(r.authorization) ==>
      var p := Parse(r.authorization).value;
      !ResponseMatches(o.hashes, o.account, r.verb, p, Get(p, "nonce"))
  }

  predicate Enabled(u: Setup, s: State, e: Event) {
    match e
    case Begin => true
    case DrawChallenge(k) => k < |s.exchanges| && s.exchanges[k].pc.Starting?
    case Answer(k, _) => k < |s.exchanges| && s.exchanges[k].pc.Told?
    case Resend(k) => k < |s.exchanges| && s.exchanges[k].kind.Client? && s.exchanges[k].pc == Answered(true)
    case Intrude(r) => Unmatched(u.options, r)
    case Arrive(k) => k < |s.exchanges| && s.exchanges[k].pc.Sent?
    case Refuse(k) => k < |s.exchanges| && s.exchanges[k].pc.Refusing?
  }

  function SetPc(s: State, k: nat, pc: Pc): State
    requires k < |s.exchanges|
  {
    s.(exchanges := s.exchanges[k := s.exchanges[k].(pc := pc)])
  }

  /** AuthorizeOnce and the send after it. */
  function SignAndSend(u: Setup, x: Exchange, cnonce: string): Exchange
    requires x.pc.Told?
  {
    var h, a := u.options.hashes, u.options.account;
    match ParseChallenge(x.pc.challenge)
    case Err(_) => x.(pc := Answered(false))
    case Ok(c) =>
      var r := Request(POST, Header(h, a, c, Ha1(h, a, c.realm, c.algorithm), POST, u.uri, "00000001", cnonce), x.pc.cookies);
      x.(sent := r, cnonce := cnonce, pc := Sent(r, cnonce))
  }

  function Next(u: Setup, s: State, e: Event): State
    requires Enabled(u, s, e)
  {
    match e
    case Begin => s.(exchanges := s.exchanges + [Exchange(Client, 0, NOTHING, "", Starting)])
    case DrawChallenge(k) =>
      var reply := Challenged(u.options, u.source, s.server, false);
      var x := s.exchanges[k].(at := s.server.drawn, pc := Told(reply.challenge, reply.cookies));
      s.(server := ChallengedState(u.options, u.source, s.server), exchanges := s.exchanges[k := x])
    case Answer(k, cnonce) =>
      s.(exchanges := s.exchanges[k := SignAndSend(u, s.exchanges[k], cnonce)])
    case Resend(k) =>
      var x := s.exchanges[k];
      s.(exchanges := s.exchanges + [x.(kind := Copy, pc := Sent(x.sent, x.cnonce))])
    case Intrude(r) => s.(exchanges := s.exchanges + [Exchange(Stray, 0, r, "", Sent(r, ""))])
    case Arrive(k) =>
      var r := s.exchanges[k].pc.request;
      (match SingleUseVerdict(u.options, s.server, r)
       case Pass =>
         SetPc(s, k, Answered(true)).(
           server := Spend(s.server, r.cookies[0]),
           log := s.log + [(r.cookies[0], Get(Parse(r.authorization).value, "nonce"))])
       case Fail(_) => SetPc(s, k, Refusing(false))
       case BadCredentials => SetPc(s, k, Refusing(true)))
    case Refuse(k) =>
      var server := if s.exchanges[k].pc.credentials then Current(u.source, s.server)
                    else ChallengedState(u.options, u.source, s.server);
      SetPc(s, k, Answered(false)).(server := server)
  }

  ghost predicate Executes(u: Setup, s: State, events: seq<Event>, t: State)
    decreases |events|
  {
    if events == [] then s == t
    else Enabled(u, s, events[0]) && Executes(u, Next(u, s, events[0]), events[1..], t)
  }

  // ----- the invariant

  function SessionOf(u: Setup, x: Exchange): string {
    u.source(x.at)
  }

  function NonceOf(u: Setup, x: Exchange): string {
    u.source(x.at + 1)
  }

  /** The request the client of this exchange sends. */
  function Meant(u: Setup, x: Exchange): Request {
    var o := u.options;
    Request(POST, DigestExchange.Answer(o.hashes, o.account, NonceOf(u, x), POST, u.uri, "00000001", x.cnonce), [SessionOf(u, x)])
  }

  predicate Live(x: Exchange) {
    x.kind.Client? && (x.pc.Told? || x.pc.Sent?)
  }

  predicate Done(x: Exchange) {
    x.kind.Client? && x.pc == Answered(true)
  }

  /** What each exchange knows and is owed. */
  ghost predicate Sound(u: Setup, d: Auth, x: Exchange) {
    match x.kind
    case Client =>
      && (x.pc.Starting? || x.pc.Told? || x.pc.Sent? || x.pc == Answered(true))
      && (Live(x) ==> x.at + 1 < d.drawn && Holds(d, SessionOf(u, x), NonceOf(u, x)))
      && (x.pc.Told? ==> x.pc.challenge == ServerChallenge(NonceOf(u, x), false) && x.pc.cookies == [SessionOf(u, x)])
      && (x.pc.Sent? ==> x.pc.request == x.sent == Meant(u, x) && x.pc.cnonce == x.cnonce)
      && (Done(x) ==> x.at + 1 < d.drawn && x.sent == Meant(u, x) && SessionOf(u, x) !in d.sessions)
    case Copy =>
      && (x.pc.Sent? || x.pc.Refusing? || x.pc == Answered(false))
      && x.at + 1 < d.drawn && x.sent == Meant(u, x) && SessionOf(u, x) !in d.sessions
      && (x.pc.Sent? ==> x.pc.request == x.sent)
    case Stray =>
      && (x.pc.Sent? || x.pc.Refusing? || x.pc == Answered(false))
      && (x.pc.Sent? ==> Unmatched(u.options, x.pc.request))
  }

  ghost predicate AllSound(u: Setup, s: State) {
    forall k :: 0 <= k < |s.exchanges| ==> Sound(u, s.server, s.exchanges[k])
  }

  /** No two exchanges share a session. */
  ghost predicate Apart(s: State) {
    forall j, k :: 0 <= j < k < |s.exchanges| && s.exchanges[j].kind.Client? && s.exchanges[k].kind.Client?
                   && !s.exchanges[j].pc.Starting? && !s.exchanges[k].pc.Starting? ==>
                     s.exchanges[j].at != s.exchanges[k].at
  }

  /** Random values not yet drawn name no session. */
  ghost predicate Unborn(u: Setup, s: State) {
    && (forall i :: i >= s.server.drawn ==> u.source(i) !in s.server.sessions)
    && (forall k :: 0 <= k < |s.exchanges| && !s.exchanges[k].pc.Starting? && s.exchanges[k].kind.Client? ==>
          s.exchanges[k].at < s.server.drawn)
  }

  /** What was accepted cannot be accepted again. */
  ghost predicate Spent(u: Setup, s: State) {
    && (forall i, j :: 0 <= i < j < |s.log| ==> s.log[i].0 != s.log[j].0)
    && (forall i :: 0 <= i < |s.log| ==>
          && s.log[i].0 !in s.server.sessions
          && WasDrawn(u, s.server.drawn, s.log[i].0))
  }

  ghost predicate WasDrawn(u: Setup, drawn: nat, session: string) {
    exists m :: 0 <= m < drawn && u.source(m) == session
  }

  /** What was drawn is none of what is drawn from now on. */
  lemma DrawnIsOld(u: Setup, drawn: nat, later: nat, session: string)
    requires Random(u.source) && WasDrawn(u, drawn, session) && drawn <= later
    ensures WasDrawn(u, later, session) && session != u.source(later)
  {
    var m :| 0 <= m < drawn && u.source(m) == session;
    assert u.source(m) != u.source(later);
  }

  // ----- what a step of the server does to an exchange

  lemma SoundAfterIssue(u: Setup, d: Auth, x: Exchange)
    requires Random(u.source) && Sound(u, d, x)
    ensures Sound(u, Issue(u.source, d), x)
  {
    hide ServerChallenge, Meant, Unmatched;
  }

  lemma SoundAfterCurrent(u: Setup, d: Auth, x: Exchange)
    requires Sound(u, d, x)
    ensures Sound(u, Current(u.source, d), x)
  {
    hide ServerChallenge, Meant, Unmatched;
  }

  lemma SoundAfterSpend(u: Setup, d: Auth, x: Exchange, session: string)
    requires Sound(u, d, x) && (Live(x) ==> session != SessionOf(u, x))
    ensures Sound(u, Spend(d, session), x)
  {
    hide ServerChallenge, Meant, Unmatched;
  }

  /** A challenge, read and answered, is the request that was meant. */
  lemma SignsAsMeant(u: Setup, d: Auth, x: Exchange, cnonce: string)
    requires Sound(u, d, x) && x.kind.Client? && x.pc.Told?
    ensures Sound(u, d, SignAndSend(u, x, cnonce)) && SignAndSend(u, x, cnonce).pc.Sent?
    ensures SignAndSend(u, x, cnonce).at == x.at && SignAndSend(u, x, cnonce).kind == x.kind
  {
    hide ServerChallenge, ParseChallenge, Header, Ha1, DigestExchange.Answer, Unmatched;
    ChallengeRoundTrip(NonceOf(u, x), false);
    AnswerIs(u.options.hashes, u.options.account, NonceOf(u, x), POST, u.uri, "00000001", cnonce);
  }

  /** What arrives is accepted from a client of this program, and from no one
      else. */
  lemma ArrivalVerdict(u: Setup, d: Auth, x: Exchange)
    requires Sound(u, d, x) && x.pc.Sent?
    ensures x.kind.Client? <==> SingleUseVerdict(u.options, d, x.pc.request) == Pass
    ensures x.kind.Client? ==>
              && x.pc.request.cookies == [SessionOf(u, x)]
              && Get(Parse(x.pc.request.authorization).value, "nonce") == NonceOf(u, x)
  {
    hide DigestExchange.Answer, Readable, ResponseMatches, Parse, Get;
    SingleUsePasses(u.options, d, SessionOf(u, x), NonceOf(u, x), u.uri, x.cnonce);
  }

  function Successes(): Exchange -> int {
    (x: Exchange) => if Done(x) then 1 else 0
  }

  // ----- every step keeps the invariant

  ghost predicate Inv(u: Setup, s: State) {
    AllSound(u, s) && Apart(s) && Unborn(u, s) && Spent(u, s) && |s.log| == Sum(s.exchanges, Successes())
  }

  ghost predicate Good(u: Setup) {
    Random(u.source) && u.options.singleUseNonce
  }

  /** What was meant depends on the session and the nonce count alone. */
  lemma MeantAgain(u: Setup, x: Exchange, y: Exchange)
    requires x.at == y.at && x.cnonce == y.cnonce
    ensures Meant(u, x) == Meant(u, y)
  {
    hide DigestExchange.Answer;
  }

  lemma ArrivedIsDone(u: Setup, d: Auth, x: Exchange)
    requires Sound(u, d, x) && x.kind.Client? && x.pc.Sent?
    ensures Sound(u, Spend(d, SessionOf(u, x)), x.(pc := Answered(true)))
  {
    hide Meant, ServerChallenge;
    MeantAgain(u, x, x.(pc := Answered(true)));
  }

  lemma RefusedIsSound(u: Setup, d: Auth, x: Exchange, pc: Pc)
    requires Sound(u, d, x) && !x.kind.Client? && (pc.Refusing? || pc == Answered(false))
    ensures Sound(u, d, x.(pc := pc))
  {
    hide Meant, Unmatched;
    MeantAgain(u, x, x.(pc := pc));
  }

  lemma ToldIsSound(u: Setup, d: Auth, x: Exchange)
    requires u.options.singleUseNonce && x.kind.Client? && x.pc.Starting?
    ensures var reply := Challenged(u.options, u.source, d, false);
            Sound(u, Issue(u.source, d), x.(at := d.drawn, pc := Told(reply.challenge, reply.cookies)))
  {
    hide Meant, ServerChallenge;
  }

  lemma CopyIsSound(u: Setup, d: Auth, x: Exchange)
    requires Sound(u, d, x) && Done(x)
    ensures Sound(u, d, x.(kind := Copy, pc := Sent(x.sent, x.cnonce)))
  {
    hide Meant;
    MeantAgain(u, x, x.(kind := Copy, pc := Sent(x.sent, x.cnonce)));
  }

  lemma SpentOnlyItsOwn(u: Setup, s: State, i: nat, k: nat)
    requires Good(u) && AllSound(u, s) && Apart(s) && i < |s.exchanges| && k < |s.exchanges| && i != k
    requires s.exchanges[k].kind.Client? && s.exchanges[k].pc.Sent?
    ensures Sound(u, Spend(s.server, SessionOf(u, s.exchanges[k])), s.exchanges[i])
  {
    hide Sound, Spend;
    LiveApart(u, s, i, k);
    SoundAfterSpend(u, s.server, s.exchanges[i], SessionOf(u, s.exchanges[k]));
  }

  lemma LiveApart(u: Setup, s: State, i: nat, k: nat)
    requires Good(u) && Apart(s) && i < |s.exchanges| && k < |s.exchanges| && i != k
    requires s.exchanges[k].kind.Client? && !s.exchanges[k].pc.Starting?
    ensures Live(s.exchanges[i]) ==> SessionOf(u, s.exchanges[k]) != SessionOf(u, s.exchanges[i])
  {
  }

  lemma SoundAfterArrival(u: Setup, s: State, k: nat)
    requires Good(u) && AllSound(u, s) && Apart(s) && Enabled(u, s, Arrive(k))
    ensures AllSound(u, Next(u, s, Arrive(k)))
  {
    hide Sound, SingleUseVerdict, Parse, Get, Spend, Good, Apart;
    var x, t := s.exchanges[k], Next(u, s, Arrive(k));
    ArrivalVerdict(u, s.server, x);
    if x.kind.Client? {
      ArrivedIsDone(u, s.server, x);
      forall i | 0 <= i < |t.exchanges| && i != k ensures Sound(u, t.server, t.exchanges[i]) {
        SpentOnlyItsOwn(u, s, i, k);
      }
    } else {
      RefusedIsSound(u, s.server, x, t.exchanges[k].pc);
    }
  }

  lemma SoundAfterDraw(u: Setup, s: State, k: nat)
    requires Good(u) && AllSound(u, s) && Enabled(u, s, DrawChallenge(k))
    ensures AllSound(u, Next(u, s, DrawChallenge(k)))
  {
    hide Sound, Issue, Challenged, Random;
    var t := Next(u, s, DrawChallenge(k));
    StartingIsClient(u, s.server, s.exchanges[k]);
    ToldIsSound(u, s.server, s.exchanges[k]);
    forall i | 0 <= i < |t.exchanges| && i != k ensures Sound(u, t.server, t.exchanges[i]) {
      SoundAfterIssue(u, s.server, s.exchanges[i]);
    }
  }

  lemma StartingIsClient(u: Setup, d: Auth, x: Exchange)
    requires Sound(u, d, x)
    ensures x.pc.Starting? || x.pc.Told? ==> x.kind.Client?
    ensures x.pc.Refusing? ==> !x.kind.Client?
  {
    hide Meant, Unmatched;
  }

  lemma SoundAfterRefusal(u: Setup, s: State, k: nat)
    requires Good(u) && AllSound(u, s) && Enabled(u, s, Refuse(k))
    ensures AllSound(u, Next(u, s, Refuse(k)))
  {
    hide Sound, Issue, Current, Random;
    var x, t := s.exchanges[k], Next(u, s, Refuse(k));
    StartingIsClient(u, s.server, x);
    RefusedIsSound(u, s.server, x, Answered(false));
    forall i | 0 <= i < |t.exchanges| ensures Sound(u, t.server, t.exchanges[i]) {
      var y := if i == k then x.(pc := Answered(false)) else s.exchanges[i];
      SoundAfterIssue(u, s.server, y);
      SoundAfterCurrent(u, s.server, y);
    }
  }

  lemma NewIsSound(u: Setup, d: Auth, r: Request)
    ensures Sound(u, d, Exchange(Client, 0, NOTHING, "", Starting))
    ensures Unmatched(u.options, r) ==> Sound(u, d, Exchange(Stray, 0, r, "", Sent(r, "")))
  {
    hide Meant, Unmatched;
  }

  lemma SoundKept(u: Setup, s: State, e: Event)
    requires Good(u) && AllSound(u, s) && Apart(s) && Enabled(u, s, e)
    ensures AllSound(u, Next(u, s, e))
  {
    hide Sound, Unmatched, SingleUseVerdict, SignAndSend, Good, Apart;
    match e
    case Arrive(k) => SoundAfterArrival(u, s, k);
    case DrawChallenge(k) => SoundAfterDraw(u, s, k);
    case Refuse(k) => SoundAfterRefusal(u, s, k);
    case Answer(k, cnonce) =>
      StartingIsClient(u, s.server, s.exchanges[k]);
      SignsAsMeant(u, s.server, s.exchanges[k], cnonce);
    case Begin => NewIsSound(u, s.server, NOTHING);
    case Resend(k) => CopyIsSound(u, s.server, s.exchanges[k]);
    case Intrude(r) => NewIsSound(u, s.server, r);
  }

  lemma ApartKept(u: Setup, s: State, e: Event)
    requires AllSound(u, s) && Apart(s) && Unborn(u, s) && Enabled(u, s, e)
    ensures Apart(Next(u, s, e))
  {
    hide Sound, Unmatched, SingleUseVerdict, SignAndSend, Spend, Challenged, Issue, Current;
    if e.Answer? {
      StartingIsClient(u, s.server, s.exchanges[e.exchange]);
      SignsAsMeant(u, s.server, s.exchanges[e.exchange], e.cnonce);
    }
  }

  lemma UnbornKept(u: Setup, s: State, e: Event)
    requires Good(u) && AllSound(u, s) && Unborn(u, s) && Enabled(u, s, e)
    ensures Unborn(u, Next(u, s, e))
  {
    hide Sound, Unmatched, SingleUseVerdict, SignAndSend, Parse, Get, ServerChallenge;
    if e.Answer? {
      StartingIsClient(u, s.server, s.exchanges[e.exchange]);
      SignsAsMeant(u, s.server, s.exchanges[e.exchange], e.cnonce);
    }
  }

  lemma SpentKept(u: Setup, s: State, e: Event)
    requires Good(u) && AllSound(u, s) && Unborn(u, s) && Spent(u, s) && Enabled(u, s, e)
    ensures Spent(u, Next(u, s, e))
  {
    hide Unmatched, SingleUseVerdict, SignAndSend, Parse, Get, ServerChallenge, Sound, Spent, Issue, Current, Challenged;
    match e
    case Arrive(k) => SpentAfterArrival(u, s, k);
    case DrawChallenge(_) => SpentAfterIssue(u, s, s.server, Next(u, s, e));
    case Refuse(_) => SpentAfterIssue(u, s, s.server, Next(u, s, e));
    case Begin | Answer(_, _) | Resend(_) | Intrude(_) => SpentUnmoved(u, s, Next(u, s, e));
  }

  lemma SpentUnmoved(u: Setup, s: State, t: State)
    requires Spent(u, s) && t.server == s.server && t.log == s.log
    ensures Spent(u, t)
  {
    hide WasDrawn;
  }

  lemma SpentAfterIssue(u: Setup, s: State, d: Auth, t: State)
    requires Random(u.source) && Spent(u, s) && d == s.server && t.log == s.log
    requires t.server == Issue(u.source, d) || t.server == Current(u.source, d)
    ensures Spent(u, t)
  {
    hide WasDrawn, Random;
    forall i | 0 <= i < |t.log| ensures t.log[i].0 !in t.server.sessions && WasDrawn(u, t.server.drawn, t.log[i].0) {
      DrawnIsOld(u, d.drawn, d.drawn, s.log[i].0);
      DrawnIsOld(u, d.drawn, t.server.drawn, s.log[i].0);
    }
  }

  lemma SpentAfterArrival(u: Setup, s: State, k: nat)
    requires Good(u) && AllSound(u, s) && Spent(u, s) && Enabled(u, s, Arrive(k))
    ensures Spent(u, Next(u, s, Arrive(k)))
  {
    hide Unmatched, SingleUseVerdict, Parse, Get, Meant, Sound, Random, WasDrawn;
    var x := s.exchanges[k];
    ArrivalVerdict(u, s.server, x);
    if x.kind.Client? {
      HeldWhileSent(u, s.server, x);
    }
  }

  lemma HeldWhileSent(u: Setup, d: Auth, x: Exchange)
    requires Sound(u, d, x) && x.pc.Sent? && x.kind.Client?
    ensures WasDrawn(u, d.drawn, SessionOf(u, x)) && SessionOf(u, x) in d.sessions
  {
    hide Meant;
    assert x.at < d.drawn && u.source(x.at) == SessionOf(u, x);
  }

  lemma LogKept(u: Setup, s: State, e: Event)
    requires Good(u) && AllSound(u, s) && Enabled(u, s, e) && |s.log| == Sum(s.exchanges, Successes())
    ensures |Next(u, s, e).log| == Sum(Next(u, s, e).exchanges, Successes())
  {
    hide Sound, Unmatched, SingleUseVerdict, Parse, Get, ServerChallenge, Spend, Issue, Current, Challenged, SignAndSend, Sum;
    var t := Next(u, s, e);
    match e
    case Begin | Resend(_) | Intrude(_) =>
      SumAppend(s.exchanges, t.exchanges[|s.exchanges|], Successes());
    case DrawChallenge(k) =>
      SumUpdate(s.exchanges, k, t.exchanges[k], Successes());
    case Refuse(k) =>
      SumUpdate(s.exchanges, k, t.exchanges[k], Successes());
    case Arrive(k) =>
      SumUpdate(s.exchanges, k, t.exchanges[k], Successes());
      ArrivalVerdict(u, s.server, s.exchanges[k]);
    case Answer(k, cnonce) =>
      StartingIsClient(u, s.server, s.exchanges[k]);
      SignsAsMeant(u, s.server, s.exchanges[k], cnonce);
      SumUpdate(s.exchanges, k, t.exchanges[k], Successes());
  }

  lemma {:induction false} RunKeepsInv(u: Setup, s: State, events: seq<Event>, t: State)
    requires Good(u) && Inv(u, s) && Executes(u, s, events, t)
    ensures Inv(u, t)
    decreases |events|
  {
    hide Good, AllSound, Apart, Unborn, Spent, Enabled, Next;
    if events != [] {
      SoundKept(u, s, events[0]);
      ApartKept(u, s, events[0]);
      UnbornKept(u, s, events[0]);
      SpentKept(u, s, events[0]);
      LogKept(u, s, events[0]);
      RunKeepsInv(u, Next(u, s, events[0]), events[1..], t);
    }
  }

  // ----- main results

  /** In every interleaving each exchange that has ended was accepted, and each
      request on its way would be accepted if it arrived now: no client, no
      resending and no intruder spends another's nonce. Nothing resent and
      nothing an intruder sends is accepted. */
  lemma EveryExchangeAccepted(u: Setup, events: seq<Event>, t: State, k: nat)
    requires Good(u) && Executes(u, START, events, t) && k < |t.exchanges|
    ensures t.exchanges[k].kind.Client? && t.exchanges[k].pc.Answered? ==> t.exchanges[k].pc.accepted
    ensures t.exchanges[k].kind.Client? && t.exchanges[k].pc.Sent? ==>
              ReplyTo(u.options, u.source, t.server, t.exchanges[k].pc.request) == Accepted
    ensures !t.exchanges[k].kind.Client? && t.exchanges[k].pc.Answered? ==> !t.exchanges[k].pc.accepted
    ensures !t.exchanges[k].kind.Client? && t.exchanges[k].pc.Sent? ==>
              ReplyTo(u.options, u.source, t.server, t.exchanges[k].pc.request) != Accepted
  {
    hide Executes, Apart, Unborn, Spent, Meant, Unmatched, SingleUseVerdict, Random, Parse, Get;
    Begins(u);
    RunKeepsInv(u, START, events, t);
    if t.exchanges[k].pc.Sent? {
      ArrivalVerdict(u, t.server, t.exchanges[k]);
    }
  }

  /** No session and nonce are accepted twice, and there are as many acceptances
      as exchanges of this program that ended. */
  lemma NeverAcceptedTwice(u: Setup, events: seq<Event>, t: State)
    requires Good(u) && Executes(u, START, events, t)
    ensures forall i, j :: 0 <= i < j < |t.log| ==> t.log[i] != t.log[j]
    ensures |t.log| == Sum(t.exchanges, Successes())
  {
    hide Executes, AllSound, Apart, Unborn;
    Begins(u);
    RunKeepsInv(u, START, events, t);
  }

  lemma Begins(u: Setup)
    requires Good(u)
    ensures Inv(u, START)
  {
  }
}
