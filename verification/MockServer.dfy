/** The mock responder's digest authentication: one shared nonce that expires
    after a number of requests, or one nonce per session, good for one request.
 */
module MockSpec {
  import opened DigestText
  import opened DigestParams
  import opened DigestHeader
  import opened DigestExchange
  import opened DigestWire

  datatype Options = Options(hashes: Hashes, account: Account, nonceLifetime: int, singleUseNonce: bool)

  /** The random values, in the order they are drawn. */
  type Source = nat -> string

  datatype Auth = Auth(nonce: string, sessions: map<string, string>, served: int, drawn: nat)

  const FRESH := Auth("", map[], 0, 0)

  /** What authentication looks at in a request: its method, its Authorization
      header and the values of its session cookies. */
  datatype Request = Request(verb: string, authorization: string, cookies: seq<string>)

  /** Refused with a 401, its challenge and any session cookie it sets. */
  datatype Reply = Accepted | Refused(challenge: string, cookies: seq<string>)

  /** No random value is drawn twice, and none is empty. */
  ghost predicate Random(source: Source) {
    && (forall i, j :: source(i) == source(j) ==> i == j)
    && (forall i :: source(i) != "")
  }

  function Current(source: Source, d: Auth): Auth {
    if d.nonce == "" then d.(nonce := source(d.drawn), drawn := d.drawn + 1) else d
  }

  function Rotate(source: Source, d: Auth): Auth {
    d.(nonce := source(d.drawn), drawn := d.drawn + 1, served := 0)
  }

  function Issue(source: Source, d: Auth): Auth {
    d.(sessions := d.sessions[source(d.drawn) := source(d.drawn + 1)], drawn := d.drawn + 2)
  }

  predicate Holds(d: Auth, session: string, nonce: string) {
    session in d.sessions && d.sessions[session] == nonce
  }

  function Spend(d: Auth, session: string): Auth {
    d.(sessions := d.sessions - {session})
  }

  function ChallengedState(o: Options, source: Source, d: Auth): Auth {
    if o.singleUseNonce then Issue(source, d) else Current(source, d)
  }

  function Challenged(o: Options, source: Source, d: Auth, stale: bool): Reply {
    if o.singleUseNonce then
      Refused(ServerChallenge(source(d.drawn + 1), stale), [source(d.drawn)])
    else
      Refused(ServerChallenge(Current(source, d).nonce, stale), [])
  }

  function Rejected(source: Source, d: Auth): Reply {
    Refused(ServerChallenge(Current(source, d).nonce, false), [])
  }

  /** One more request served on the shared nonce. */
  function Served(o: Options, source: Source, d: Auth): Auth {
    if o.nonceLifetime > 0 then
      if d.served + 1 >= o.nonceLifetime then Rotate(source, d) else d.(served := d.served + 1)
    else
      d
  }

  predicate HasPrefix(s: string, prefix: string) {
    |s| >= |prefix| && s[..|prefix|] == prefix
  }

  /** The header names the Digest scheme and has parameters. */
  predicate Readable(authorization: string) {
    HasPrefix(Lower(authorization), "digest ") && Parse(authorization).Ok?
  }

  /** Why a request is answered as it is. */
  datatype Verdict = Pass | Fail(stale: bool) | BadCredentials

  function SharedVerdict(o: Options, source: Source, d: Auth, r: Request): Verdict {
    if !Readable(r.authorization) then Fail(false)
    else
      var p := Parse(r.authorization).value;
      var nonce := Current(source, d).nonce;
      if Get(p, "nonce") != nonce then Fail(true)
      else if !ResponseMatches(o.hashes, o.account, r.verb, p, nonce) then BadCredentials
      else Pass
  }

  function SingleUseVerdict(o: Options, d: Auth, r: Request): Verdict {
    if !Readable(r.authorization) then Fail(false)
    else
      var p := Parse(r.authorization).value;
      if |r.cookies| != 1 then Fail(false)
      else if Get(p, "nc") != "" && Get(p, "nc") != "00000001" then Fail(false)
      else if !ResponseMatches(o.hashes, o.account, r.verb, p, Get(p, "nonce")) then BadCredentials
      else if !Holds(d, r.cookies[0], Get(p, "nonce")) then Fail(false)
      else Pass
  }

  function ReplyTo(o: Options, source: Source, d: Auth, r: Request): Reply {
    match (if o.singleUseNonce then SingleUseVerdict(o, d, r) else SharedVerdict(o, source, d, r))
    case Pass => Accepted
    case Fail(stale) => Challenged(o, source, d, stale)
    case BadCredentials => Rejected(source, d)
  }

  function StateAfter(o: Options, source: Source, d: Auth, r: Request): Auth {
    match (if o.singleUseNonce then SingleUseVerdict(o, d, r) else SharedVerdict(o, source, d, r))
    case Pass => if o.singleUseNonce then Spend(d, r.cookies[0]) else Served(o, source, Current(source, d))
    case Fail(_) => ChallengedState(o, source, d)
    case BadCredentials => Current(source, d)
  }

  // ----- what the client's requests meet

  const POST := "POST"

  /** A request with no Authorization header draws a challenge. */
  lemma BareRequestIsChallenged(o: Options, source: Source, d: Auth)
    ensures ReplyTo(o, source, d, Request(POST, "", [])) == Challenged(o, source, d, false)
    ensures StateAfter(o, source, d, Request(POST, "", [])) == ChallengedState(o, source, d)
  {
    hide Challenged, ChallengedState, Parse, Readable;
    NothingIsUnreadable();
  }

  lemma NothingIsUnreadable()
    ensures !Readable("")
  {
    hide Parse;
    assert |Lower("")| == 0;
  }

  lemma AnswerIsReadable(h: Hashes, a: Account, nonce: string, uri: string, nc: string, cnonce: string)
    requires Token(nc)
    ensures Readable(Answer(h, a, nonce, POST, uri, nc, cnonce))
  {
    hide Parse, Lower, Print, HeaderParams, Header, Token;
    AnswerAccepted(h, a, a, nonce, POST, uri, nc, cnonce);
    AnswerIs(h, a, nonce, POST, uri, nc, cnonce);
    var c := Challenge(REALM, nonce, "", "auth", "");
    var ha1 := Ha1(h, a, REALM, "");
    HeaderIsPrinted(h, a, c, ha1, POST, uri, nc, cnonce);
    NamesScheme(Print(HeaderParams(h, a, c, ha1, POST, uri, nc, cnonce)));
  }

  lemma NamesScheme(rest: string)
    ensures HasPrefix(Lower("Digest " + rest), "digest ")
  {
    assert Lower("Digest " + rest)[..7] == "digest ";
  }

  /** The right account on the current nonce is served; on any other nonce it is
      told that its nonce is stale, never that its credentials are bad. */
  lemma SharedAnswerMeets(
    o: Options, source: Source, d: Auth, nonce: string, uri: string, nc: string, cnonce: string, cookies: seq<string>)
    requires !o.singleUseNonce && Token(nc)
    ensures var r := Request(POST, Answer(o.hashes, o.account, nonce, POST, uri, nc, cnonce), cookies);
            var current := Current(source, d);
            if nonce == current.nonce then
              ReplyTo(o, source, d, r) == Accepted && StateAfter(o, source, d, r) == Served(o, source, current)
            else
              && ReplyTo(o, source, d, r) == Refused(ServerChallenge(current.nonce, true), [])
              && StateAfter(o, source, d, r) == current
  {
    hide Parse, Answer, Readable, ResponseMatches, Served, Current, Get, Token, ServerChallenge;
    AnswerIsReadable(o.hashes, o.account, nonce, uri, nc, cnonce);
    AnswerAccepted(o.hashes, o.account, o.account, nonce, POST, uri, nc, cnonce);
  }

  /** The right account passes exactly when the session holds the nonce. */
  lemma SingleUsePasses(o: Options, d: Auth, session: string, nonce: string, uri: string, cnonce: string)
    ensures var r := Request(POST, Answer(o.hashes, o.account, nonce, POST, uri, "00000001", cnonce), [session]);
            && SingleUseVerdict(o, d, r) == (if Holds(d, session, nonce) then Pass else Fail(false))
            && Readable(r.authorization) && Get(Parse(r.authorization).value, "nonce") == nonce
  {
    hide Parse, Answer, Readable, ResponseMatches, Get, Token;
    OneIsToken();
    AnswerIsReadable(o.hashes, o.account, nonce, uri, "00000001", cnonce);
    AnswerAccepted(o.hashes, o.account, o.account, nonce, POST, uri, "00000001", cnonce);
  }

  /** A first use of a session's own nonce is served and spends it; a session
      that does not hold the nonce, or no longer, is challenged anew. */
  lemma SingleUseAnswerMeets(
    o: Options, source: Source, d: Auth, session: string, nonce: string, uri: string, cnonce: string)
    requires o.singleUseNonce
    ensures var r := Request(POST, Answer(o.hashes, o.account, nonce, POST, uri, "00000001", cnonce), [session]);
            if Holds(d, session, nonce) then
              ReplyTo(o, source, d, r) == Accepted && StateAfter(o, source, d, r) == Spend(d, session)
            else
              && ReplyTo(o, source, d, r) == Challenged(o, source, d, false)
              && StateAfter(o, source, d, r) == Issue(source, d)
  {
    hide Answer, SingleUseVerdict, Challenged, Issue;
    SingleUsePasses(o, d, session, nonce, uri, cnonce);
  }

  lemma OneIsToken()
    ensures Token("00000001")
  {
    FirstNonceCount();
  }

  /** With a hash free of collisions, a wrong account is told so in either mode:
      it is challenged with the current nonce and never told that its own is
      stale, gets no session, and spends nothing: no nonce, no session and no part
      of a lifetime. */
  lemma WrongAccountSpendsNothing(
    o: Options, source: Source, d: Auth, a: Account, nonce: string, uri: string, cnonce: string, session: string)
    requires Injective(o.hashes.md5) && a != o.account
    requires !o.singleUseNonce ==> nonce == Current(source, d).nonce
    ensures var r := Request(POST, Answer(o.hashes, a, nonce, POST, uri, "00000001", cnonce), [session]);
            && ReplyTo(o, source, d, r) == Rejected(source, d)
            && ReplyTo(o, source, d, r).Refused? && ReplyTo(o, source, d, r).cookies == []
            && !IsStale(401, ReplyTo(o, source, d, r).challenge)
            && ParseChallenge(ReplyTo(o, source, d, r).challenge) ==
               Ok(Challenge("timestampserver", Current(source, d).nonce, "", "auth", ""))
            && StateAfter(o, source, d, r).sessions == d.sessions && StateAfter(o, source, d, r).served == d.served
            && (d.nonce != "" ==> StateAfter(o, source, d, r) == d)
  {
    hide Parse, ParseChallenge, IsStale, Answer, Readable, ResponseMatches, Get, Token, Rejected, Injective;
    OneIsToken();
    AnswerIsReadable(o.hashes, a, nonce, uri, "00000001", cnonce);
    AnswerAccepted(o.hashes, a, o.account, nonce, POST, uri, "00000001", cnonce);
    RejectionReads(source, d);
  }

  /** A request is served exactly when it names the scheme and the user, proves
      the password on the nonce it names, and that nonce is good: in the shared
      mode the current one; in the single-use mode the one held by the only
      session it presents, on its first use. */
  lemma ServesExactly(o: Options, source: Source, d: Auth, r: Request)
    ensures ReplyTo(o, source, d, r) == Accepted <==>
            && HasPrefix(Lower(r.authorization), "digest ") && Parse(r.authorization).Ok?
            && var p := Parse(r.authorization).value;
               && Get(p, "username") == o.account.username
               && Proves(o.hashes, o.account, r.verb, p, Get(p, "nonce"))
               && if o.singleUseNonce then
                    && |r.cookies| == 1 && Get(p, "nc") in {"", "00000001"}
                    && r.cookies[0] in d.sessions && d.sessions[r.cookies[0]] == Get(p, "nonce")
                  else
                    Get(p, "nonce") == if d.nonce == "" then source(d.drawn) else d.nonce
  {
    hide Parse, Lower, HasPrefix, ResponseMatches, Get, ServerChallenge;
    if Parse(r.authorization).Ok? {
      var p := Parse(r.authorization).value;
      ServerChecksExactly(o.hashes, o.account, r.verb, p, Get(p, "nonce"));
    }
  }

  /** The shared nonce is replaced exactly when the request that completes its
      lifetime is served; a server without a lifetime keeps its nonce for good. */
  lemma ReplacedExactly(o: Options, source: Source, d: Auth, r: Request)
    requires !o.singleUseNonce && d.nonce != "" && d.nonce != source(d.drawn)
    ensures StateAfter(o, source, d, r).nonce != d.nonce <==>
            ReplyTo(o, source, d, r) == Accepted && 0 < o.nonceLifetime <= d.served + 1
    ensures StateAfter(o, source, d, r).sessions == d.sessions
  {
    hide Readable, ResponseMatches, ServerChallenge;
  }

  lemma RejectionReads(source: Source, d: Auth)
    ensures var r := Rejected(source, d);
            && r.Refused? && r.cookies == [] && !IsStale(401, r.challenge)
            && ParseChallenge(r.challenge) == Ok(Challenge("timestampserver", Current(source, d).nonce, "", "auth", ""))
  {
    hide Current, ServerChallenge, IsStale, ParseChallenge;
    ChallengeRoundTrip(Current(source, d).nonce, false);
  }
}

module MockServer {
  import opened DigestText
  import opened DigestParams
  import opened DigestHeader
  import opened DigestExchange
  import opened MockSpec

  class Server {
    const options: Options
    const source: Source
    var nonce: string
    var sessions: map<string, string>
    var served: int
    var drawn: nat

    function State(): Auth
      reads this
    {
      Auth(nonce, sessions, served, drawn)
    }

    constructor (options: Options, source: Source)
      ensures State() == FRESH && this.options == options && this.source == source
    {
      this.options := options;
      this.source := source;
      nonce, sessions, served, drawn := "", map[], 0, 0;
    }

    method RandomNonce() returns (r: string)
      modifies this`drawn
      ensures r == source(old(drawn)) && drawn == old(drawn) + 1
    {
      r := source(drawn);
      drawn := drawn + 1;
    }

    method CurrentNonce() returns (r: string)
      modifies this
      ensures State() == Current(source, old(State())) && r == nonce
    {
      if nonce == "" {
        nonce := RandomNonce();
      }
      return nonce;
    }

    method RotateNonce()
      modifies this
      ensures State() == Rotate(source, old(State()))
    {
      nonce := RandomNonce();
      served := 0;
    }

    method IssueSession() returns (session: string, issued: string)
      modifies this
      ensures State() == Issue(source, old(State()))
      ensures session == source(old(drawn)) && issued == source(old(drawn) + 1)
    {
      session := RandomNonce();
      issued := RandomNonce();
      sessions := sessions[session := issued];
    }

    /** The second attempt with the same nonce finds nothing. */
    method Consume(session: string, presented: string) returns (ok: bool)
      modifies this`sessions
      ensures ok <==> Holds(old(State()), session, presented)
      ensures State() == if ok then Spend(old(State()), session) else old(State())
    {
      if session !in sessions || sessions[session] != presented {
        return false;
      }
      sessions := sessions - {session};
      return true;
    }

    method WriteChallenge(stale: bool) returns (reply: Reply)
      modifies this
      ensures State() == ChallengedState(options, source, old(State()))
      ensures reply == Challenged(options, source, old(State()), stale)
    {
      hide ServerChallenge;
      if options.singleUseNonce {
        var session, issued := IssueSession();
        return Refused(ServerChallenge(issued, stale), [session]);
      }
      var current := CurrentNonce();
      return Refused(ServerChallenge(current, stale), []);
    }

    method Reject() returns (reply: Reply)
      modifies this
      ensures State() == Current(source, old(State())) && reply == Rejected(source, old(State()))
    {
      hide ServerChallenge;
      var current := CurrentNonce();
      return Refused(ServerChallenge(current, false), []);
    }

    method Authorised(r: Request) returns (reply: Reply)
      requires Random(source)
      modifies this
      ensures State() == StateAfter(options, source, old(State()), r)
      ensures reply == ReplyTo(options, source, old(State()), r)
    {
      hide Parse, ResponseMatches, HasPrefix, Lower, ServerChallenge;
      if !HasPrefix(Lower(r.authorization), "digest ") {
        reply := WriteChallenge(false);
        return;
      }
      var parsed := Parse(r.authorization);
      if parsed.Err? {
        reply := WriteChallenge(false);
        return;
      }
      if options.singleUseNonce {
        reply := AuthorisedSingleUse(r, parsed.value);
        return;
      }
      var current := CurrentNonce();
      if Get(parsed.value, "nonce") != current {
        reply := WriteChallenge(true);
        return;
      }
      if !ResponseMatches(options.hashes, options.account, r.verb, parsed.value, current) {
        reply := Reject();
        return;
      }
      if options.nonceLifetime > 0 {
        served := served + 1;
        if served >= options.nonceLifetime {
          RotateNonce();
        }
      }
      return Accepted;
    }

    method AuthorisedSingleUse(r: Request, p: Params) returns (reply: Reply)
      requires Random(source)
      requires options.singleUseNonce && Readable(r.authorization) && p == Parse(r.authorization).value
      modifies this
      ensures State() == StateAfter(options, source, old(State()), r)
      ensures reply == ReplyTo(options, source, old(State()), r)
    {
      hide Parse, ResponseMatches, HasPrefix, Lower, ServerChallenge;
      if |r.cookies| != 1 {
        reply := WriteChallenge(false);
        return;
      }
      if Get(p, "nc") != "" && Get(p, "nc") != "00000001" {
        reply := WriteChallenge(false);
        return;
      }
      if !ResponseMatches(options.hashes, options.account, r.verb, p, Get(p, "nonce")) {
        reply := Reject();
        return;
      }
      var ok := Consume(r.cookies[0], Get(p, "nonce"));
      if !ok {
        reply := WriteChallenge(false);
        return;
      }
      return Accepted;
    }
  }
}
