/** The client side of authentication: priming, signing, answering a stale
    challenge, and the count of the requests this costs.
 */
module LifetimeSpec {
  import opened MockSpec

  /** Where a sequential client and the server stand: the server's state, the
      nonce the client knows, and what was spent on authentication. */
  datatype Progress = Progress(server: Auth, known: string, requests: nat)

  function Primed(source: Source): Progress {
    var d := Current(source, FRESH);
    Progress(d, d.nonce, 1)
  }

  /** One timestamp: if the client's nonce is no longer the server's, learning
      the new one costs a request. */
  function AfterPost(o: Options, source: Source, p: Progress): Progress {
    var d := Current(source, p.server);
    Progress(Served(o, source, d), d.nonce, p.requests + if p.known == d.nonce then 0 else 1)
  }

  function AfterPosts(o: Options, source: Source, k: nat): Progress {
    if k == 0 then Primed(source) else AfterPost(o, source, AfterPosts(o, source, k - 1))
  }

  /** The nonces the server has issued are the values drawn, the last one being
      the current one. */
  ghost predicate Aligned(source: Source, p: Progress, known: nat) {
    && p.server.drawn >= 1 && known < p.server.drawn
    && p.server.nonce == source(p.server.drawn - 1) && p.known == source(known)
  }

  lemma {:induction false} WhereItStands(o: Options, source: Source, k: nat) returns (known: nat)
    requires Random(source) && o.nonceLifetime >= 1
    ensures var p := AfterPosts(o, source, k);
            && Aligned(source, p, known)
            && p.server.served == k % o.nonceLifetime
            && (known == p.server.drawn - 1 <==> k == 0 || k % o.nonceLifetime != 0)
  {
    if k == 0 {
      known := 0;
    } else {
      var before := WhereItStands(o, source, k - 1);
      var p := AfterPosts(o, source, k - 1);
      known := p.server.drawn - 1;
      CountOn(k, o.nonceLifetime);
    }
  }

  /** Counting one further, the remainder grows or starts over with the
      quotient. */
  lemma CountOn(k: nat, n: nat)
    requires k >= 1 && n >= 1
    ensures k % n == (if (k - 1) % n + 1 == n then 0 else (k - 1) % n + 1)
    ensures k / n == (k - 1) / n + if k % n == 0 then 1 else 0
  {
    var q, r := (k - 1) / n, (k - 1) % n;
    assert k == q * n + r + 1;
    if r + 1 == n {
      Quotient(k, n, q + 1, 0);
    } else {
      Quotient(k, n, q, r + 1);
    }
  }

  lemma Quotient(k: nat, n: nat, q: nat, r: nat)
    requires n >= 1 && k == q * n + r && r < n
    ensures k / n == q && k % n == r
  {
    var d := k / n - q;
    assert d * n == r - k % n;
    assert d >= 1 ==> d * n >= n;
    assert d <= -1 ==> d * n + n <= 0;
  }

  /** A nonce good for n requests costs one authentication request at the start
      and one for every n timestamps after the first; a nonce that never
      expires costs the one at the start. */
  lemma {:induction false} LifetimeCost(o: Options, source: Source, k: nat)
    requires Random(source)
    ensures AfterPosts(o, source, k).requests ==
            if o.nonceLifetime <= 0 || k == 0 then 1 else 1 + (k - 1) / o.nonceLifetime
  {
    hide Random, Served;
    if o.nonceLifetime <= 0 {
      NeverExpires(o, source, k);
    } else if k > 0 {
      LifetimeCost(o, source, k - 1);
      KnowsUnlessExpired(o, source, k - 1);
      if k > 1 {
        CountOn(k - 1, o.nonceLifetime);
      }
    }
  }

  /** The client is behind exactly after every n-th timestamp. */
  lemma KnowsUnlessExpired(o: Options, source: Source, k: nat)
    requires Random(source) && o.nonceLifetime >= 1
    ensures var p := AfterPosts(o, source, k);
            p.server.nonce != "" && (p.known == p.server.nonce <==> k == 0 || k % o.nonceLifetime != 0)
  {
    hide AfterPosts;
    var known := WhereItStands(o, source, k);
  }

  lemma {:induction false} NeverExpires(o: Options, source: Source, k: nat)
    requires Random(source) && o.nonceLifetime <= 0
    ensures AfterPosts(o, source, k) == Primed(source)
  {
    if k > 0 {
      NeverExpires(o, source, k - 1);
    }
  }
}

module Authenticator {
  import opened DigestText
  import opened DigestParams
  import opened DigestHeader
  import opened DigestExchange
  import opened D = DigestState
  import opened MockSpec
  import opened LifetimeSpec
  import M = MockServer

  datatype HttpResponse = HttpResponse(status: int, challenge: string, cookies: seq<string>)

  /** A request ready to send: its Authorization header and its cookies. */
  datatype Signed = Signed(authorization: string, cookies: seq<string>)

  datatype Drawn = Drawn(challenge: string, cookies: seq<string>)

  /** The challenge the mock server issues with a nonce. */
  function Issued(nonce: string): Challenge {
    Challenge(REALM, nonce, "", "auth", "")
  }

  function HttpOf(reply: Reply): HttpResponse {
    match reply
    case Accepted => HttpResponse(200, "", [])
    case Refused(challenge, cookies) => HttpResponse(UNAUTHORIZED, challenge, cookies)
  }

  /** The HTTP client. With no server behind it, it may fail or answer anything
      at all. */
  class Link {
    const server: M.Server?
    var sent: nat

    constructor (server: M.Server?)
      ensures this.server == server && sent == 0
    {
      this.server := server;
      sent := 0;
    }

    method Do(r: Request) returns (response: Result<HttpResponse>)
      requires server != null ==> Random(server.source)
      modifies this`sent, server
      ensures sent == old(sent) + 1
      ensures server != null ==>
                && response == Ok(HttpOf(ReplyTo(server.options, server.source, old(server.State()), r)))
                && server.State() == StateAfter(server.options, server.source, old(server.State()), r)
    {
      hide ReplyTo, StateAfter;
      sent := sent + 1;
      if server != null {
        var reply := server.Authorised(r);
        return Ok(HttpOf(reply));
      }
      var failed: bool := *;
      if failed {
        return Err("no response");
      }
      var status: int := *;
      var challenge: string := *;
      var cookies: seq<string> := *;
      return Ok(HttpResponse(status, challenge, cookies));
    }
  }

  class Authenticator {
    const creds: D.DigestState
    const digest: bool
    const perRequest: bool
    const otherHeader: string
    const wellFormed: bool
    const uri: string
    const link: Link
    var requests: nat
    /** Timestamp requests whose first build succeeded. */
    ghost var posted: nat

    /** Every HTTP request is an authentication request or the first send of a
        timestamp; a malformed endpoint is never sent anything. */
    ghost predicate Conserved()
      reads this, link
    {
      if wellFormed then link.sent == requests + posted else link.sent == 0 && posted == 0
    }

    ghost predicate Ready()
      reads creds
    {
      creds.Valid() && (link.server != null ==> Random(link.server.source))
    }

    ghost predicate Valid()
      reads this, creds, link
    {
      Ready() && Conserved()
    }

    /** Each request carries its own challenge. */
    predicate PerRequest() {
      digest && perRequest
    }

    /** A client in the shared mode facing a server with a shared nonce and the
        same account, and holding a challenge that server issued. */
    ghost predicate Talking()
      reads creds
    {
      && digest && !perRequest && wellFormed && link.server != null
      && !link.server.options.singleUseNonce
      && link.server.options.hashes == creds.hashes && link.server.options.account == creds.account
      && creds.challenge == Issued(creds.challenge.nonce) && creds.Primed()
    }

    /** A client in the per-request mode facing a server whose nonces are single
        use. */
    ghost predicate TalkingOnce() {
      && digest && perRequest && wellFormed && link.server != null
      && link.server.options.singleUseNonce
      && link.server.options.hashes == creds.hashes && link.server.options.account == creds.account
    }

    /** What the shared mode sends with the count it has just drawn. */
    function SharedAnswer(cnonce: string): Signed
      reads creds
    {
      Signed(Answer(creds.hashes, creds.account, creds.challenge.nonce, POST, uri, NonceCount(creds.nc), cnonce), [])
    }

    /** What the per-request mode sends for a session's own nonce. */
    function OnceAnswer(session: string, nonce: string, cnonce: string): Signed {
      Signed(Answer(creds.hashes, creds.account, nonce, POST, uri, "00000001", cnonce), [session])
    }

    function Standing(): Progress
      requires link.server != null
      reads this, creds, link.server
    {
      Progress(link.server.State(), creds.challenge.nonce, requests)
    }

    constructor (
      creds: D.DigestState, digest: bool, perRequest: bool, otherHeader: string, wellFormed: bool, uri: string, link: Link)
      requires creds.Valid() && link.sent == 0 && (link.server != null ==> Random(link.server.source))
      ensures Valid() && requests == 0 && posted == 0
      ensures this.creds == creds && this.digest == digest && this.perRequest == perRequest
      ensures this.wellFormed == wellFormed && this.uri == uri && this.link == link
    {
      this.creds := creds;
      this.digest := digest;
      this.perRequest := perRequest;
      this.otherHeader := otherHeader;
      this.wellFormed := wellFormed;
      this.uri := uri;
      this.link := link;
      requests := 0;
      posted := 0;
    }

    /** DrawDigestChallenge: a request with no body and no credentials, which
        must be refused with a challenge. */
    method DrawChallenge() returns (r: Result<Drawn>)
      requires link.server != null ==> Random(link.server.source)
      modifies link`sent, link.server
      ensures link.sent == old(link.sent) + if wellFormed then 1 else 0
      ensures r.Ok? ==> wellFormed
      ensures wellFormed && link.server != null ==>
                && link.server.State() == ChallengedState(link.server.options, link.server.source, old(link.server.State()))
                && var reply := Challenged(link.server.options, link.server.source, old(link.server.State()), false);
                   r == Ok(Drawn(reply.challenge, reply.cookies))
    {
      hide ReplyTo, StateAfter, ServerChallenge, Random;
      if !wellFormed {
        return Err("build challenge request");
      }
      ghost var before := if link.server != null then link.server.State() else FRESH;
      var response := link.Do(Request(POST, "", []));
      if link.server != null {
        BareRequestIsChallenged(link.server.options, link.server.source, before);
        ChallengeIsText(link.server.options, link.server.source, before);
      }
      if response.Err? {
        return Err(response.message);
      }
      if response.value.status != UNAUTHORIZED {
        return Err("expected a 401 digest challenge");
      }
      if response.value.challenge == "" {
        return Err("the 401 carried no WWW-Authenticate header");
      }
      return Ok(Drawn(response.value.challenge, response.value.cookies));
    }

    method Draw() returns (r: Result<Drawn>)
      requires link.server != null ==> Random(link.server.source)
      modifies this`requests, link`sent, link.server
      ensures requests == old(requests) + 1
      ensures link.sent == old(link.sent) + if wellFormed then 1 else 0
      ensures r.Ok? ==> wellFormed
      ensures wellFormed && link.server != null ==>
                && link.server.State() == ChallengedState(link.server.options, link.server.source, old(link.server.State()))
                && var reply := Challenged(link.server.options, link.server.source, old(link.server.State()), false);
                   r == Ok(Drawn(reply.challenge, reply.cookies))
    {
      hide ChallengedState, Challenged, Random;
      r := DrawChallenge();
      requests := requests + 1;
    }

    method Prime() returns (ok: bool)
      requires Valid()
      modifies this`requests, creds, link`sent, link.server
      ensures Valid()
      ensures requests == old(requests) + if digest && !perRequest && !old(creds.HasChallenge()) then 1 else 0
      ensures requests == old(requests) ==> ok && unchanged(creds)
      ensures ok && requests > old(requests) && creds.HasChallenge() ==> creds.Primed()
      ensures requests > old(requests) && wellFormed && link.server != null && !link.server.options.singleUseNonce ==>
                && ok && link.server.State() == Current(link.server.source, old(link.server.State()))
                && creds.challenge == Issued(link.server.nonce) && creds.Primed()
    {
      hide ServerChallenge, ParseChallenge, Ha1;
      if !digest || perRequest || creds.HasChallenge() {
        return true;
      }
      var drawn := Draw();
      if drawn.Err? {
        return false;
      }
      if link.server != null && !link.server.options.singleUseNonce {
        ChallengeRoundTrip(link.server.nonce, false);
      }
      var stored := creds.SetChallenge(drawn.value.challenge);
      return stored.Ok?;
    }

    method Authorize() returns (r: Result<Signed>, ghost cnonce: string)
      requires Ready()
      modifies this`requests, creds`nc, creds`ha1, creds`ha1Realm, creds`ha1Algo, link`sent, link.server
      ensures Ready()
      ensures requests == old(requests) + if PerRequest() then 1 else 0
      ensures link.sent == old(link.sent) + if PerRequest() && wellFormed then 1 else 0
      ensures !PerRequest() ==> r.Ok? && (link.server != null ==> link.server.State() == old(link.server.State()))
      ensures r.Ok? && PerRequest() ==> wellFormed
      ensures old(Talking()) ==>
                && Talking()
                && r.value == SharedAnswer(cnonce)
      ensures TalkingOnce() ==>
                var source, drawn := link.server.source, old(link.server.drawn);
                && link.server.State() == Issue(source, old(link.server.State()))
                && r == Ok(OnceAnswer(source(drawn), source(drawn + 1), cnonce))
    {
      hide Header, Ha1, ServerChallenge, ParseChallenge, NonceCount, Random;
      cnonce := "";
      if !PerRequest() {
        if !digest {
          return Ok(Signed(otherHeader, [])), cnonce;
        }
        var client: string := *;
        cnonce := client;
        var header := creds.ApplyDigest(POST, uri, client);
        return Ok(Signed(if header.Some? then header.value else "", [])), cnonce;
      }
      ghost var before := if link.server != null then link.server.drawn else 0;
      var drawn := Draw();
      if drawn.Err? {
        return Err(drawn.message), cnonce;
      }
      var client: string := *;
      cnonce := client;
      var header := creds.AuthorizeOnce(drawn.value.challenge, POST, uri, client);
      if TalkingOnce() {
        ChallengeRoundTrip(link.server.source(before + 1), false);
      }
      if header.Err? {
        return Err("cannot answer digest challenge"), cnonce;
      }
      return Ok(Signed(header.value, drawn.value.cookies)), cnonce;
    }

    /** Only a stale challenge is worth answering, and answering it costs one
        authentication request: the send repeated. */
    method RetryStale(response: HttpResponse) returns (stale: bool, failed: bool)
      requires creds.Valid()
      modifies this`requests, creds
      ensures creds.Valid()
      ensures stale <==> digest && !perRequest && IsStale(response.status, response.challenge)
      ensures failed <==> stale && ParseChallenge(response.challenge).Err?
      ensures requests == old(requests) + if stale && !failed then 1 else 0
      ensures stale && !failed ==>
                && creds.challenge == ParseChallenge(response.challenge).value
                && (creds.HasChallenge() ==> creds.Primed())
      ensures !stale ==> unchanged(creds)
    {
      hide ParseChallenge, IsStale, Ha1;
      if !digest || perRequest || !IsStale(response.status, response.challenge) {
        return false, false;
      }
      var stored := creds.SetChallenge(response.challenge);
      if stored.Err? {
        return true, true;
      }
      requests := requests + 1;
      return true, false;
    }

    /** Builds one timestamp request: only the first failure to build can keep a
        timestamp from being sent. */
    method Build() returns (r: Result<Signed>, ghost cnonce: string)
      requires Ready()
      modifies this`requests, creds`nc, creds`ha1, creds`ha1Realm, creds`ha1Algo, link`sent, link.server
      ensures Ready()
      ensures requests == old(requests) + if wellFormed && PerRequest() then 1 else 0
      ensures link.sent == old(link.sent) + if wellFormed && PerRequest() then 1 else 0
      ensures r.Ok? ==> wellFormed
      ensures wellFormed && !PerRequest() ==> r.Ok?
      ensures !PerRequest() && link.server != null ==> link.server.State() == old(link.server.State())
      ensures old(Talking()) ==>
                && Talking()
                && r.value == SharedAnswer(cnonce)
      ensures TalkingOnce() ==>
                var source, drawn := link.server.source, old(link.server.drawn);
                && link.server.State() == Issue(source, old(link.server.State()))
                && r == Ok(OnceAnswer(source(drawn), source(drawn + 1), cnonce))
    {
      hide Answer, NonceCount, Random, Issue, Issued;
      if !wellFormed {
        return Err("build HTTP request"), "";
      }
      r, cnonce := Authorize();
    }

    /** One timestamp. Whatever the link answers, and wherever it fails, what was
        sent is what was counted as authentication, plus one if the request
        could be built at all; and no more than one request is sent twice. */
    method PostTimestamp() returns (r: Result<HttpResponse>, ghost built: bool)
      requires Valid()
      modifies this, creds, link`sent, link.server
      ensures Valid()
      ensures posted == old(posted) + if built then 1 else 0
      ensures built ==> wellFormed
      ensures !PerRequest() ==> built == wellFormed
      ensures old(requests) <= requests <= old(requests) + 1
      ensures wellFormed && PerRequest() ==> requests == old(requests) + 1
      ensures r.Ok? ==> built
      ensures old(Talking()) ==>
                && Talking() && r == Ok(HttpOf(Accepted))
                && Standing() == AfterPost(link.server.options, link.server.source, old(Standing()))
      ensures TalkingOnce() ==>
                && r == Ok(HttpOf(Accepted)) && built
                && link.server.State() ==
                   Spend(Issue(link.server.source, old(link.server.State())), link.server.source(old(link.server.drawn)))
    {
      hide ParseChallenge, IsStale, Answer, NonceCount, Random, Ha1, ReplyTo, StateAfter, ServerChallenge;
      hide Issue, Served, Current, Spend;
      ghost var start := if link.server != null then link.server.State() else FRESH;
      ghost var nonce := creds.challenge.nonce;
      built := false;
      var first, cnonce := Build();
      if first.Err? {
        return Err(first.message), built;
      }
      built := true;
      posted := posted + 1;
      var response := link.Do(Request(POST, first.value.authorization, first.value.cookies));
      if old(Talking()) {
        SharedAnswerMeets(link.server.options, link.server.source, start, nonce, uri, NonceCount(creds.nc), cnonce, []);
      }
      if TalkingOnce() {
        OnceAccepted(link.server.options, link.server.source, start, uri, cnonce);
      }
      if response.Err? {
        return Err(response.message), built;
      }
      ghost var current := if link.server != null then Current(link.server.source, start).nonce else "";
      ChallengeRoundTrip(current, true);
      NoChallengeIsNotStale();
      var stale, failed := RetryStale(response.value);
      if !stale {
        return Ok(response.value), built;
      }
      if failed {
        return Err("cannot answer digest challenge"), built;
      }
      if old(Talking()) {
        CurrentIsNotEmpty(link.server.source, start);
      }
      var again, cnonce2 := Build();
      if again.Err? {
        return Err(again.message), built;
      }
      r := link.Do(Request(POST, again.value.authorization, again.value.cookies));
      if old(Talking()) {
        SharedAnswerMeets(
          link.server.options, link.server.source, Current(link.server.source, start), current, uri,
          NonceCount(creds.nc), cnonce2, []);
      }
    }
  }

  /** A sequential client sending k timestamps to a server whose nonces last
      for n requests: all are accepted, and the HTTP requests beyond them are
      the first challenge and one for every n timestamps after the first. */
  method SendAll(auth: Authenticator, k: nat) returns (accepted: nat)
    requires auth.Valid() && auth.requests == 0 && auth.posted == 0
    requires auth.digest && !auth.perRequest && auth.wellFormed && !auth.creds.HasChallenge()
    requires auth.link.server != null && auth.link.server.State() == FRESH
    requires !auth.link.server.options.singleUseNonce
    requires auth.link.server.options.hashes == auth.creds.hashes && auth.link.server.options.account == auth.creds.account
    modifies auth, auth.creds, auth.link`sent, auth.link.server
    ensures accepted == k
    ensures var n := auth.link.server.options.nonceLifetime;
            auth.requests == if n <= 0 || k == 0 then 1 else 1 + (k - 1) / n
    ensures auth.link.sent == auth.requests + k
  {
    hide AfterPost, Random, Current;
    var primed := auth.Prime();
    var server := auth.link.server;
    assert auth.Standing() == Primed(server.source);
    accepted := 0;
    for i := 0 to k
      invariant auth.Valid() && auth.Talking() && accepted == i && auth.posted == i
      invariant auth.Standing() == AfterPosts(server.options, server.source, i)
    {
      var response, _ := auth.PostTimestamp();
      if response.Ok? && response.value.status == 200 {
        accepted := accepted + 1;
      }
    }
    LifetimeCost(server.options, server.source, k);
  }

  lemma ChallengeIsText(o: Options, source: Source, d: Auth)
    ensures Challenged(o, source, d, false).challenge != ""
  {
    hide Quote;
  }

  lemma NoChallengeIsNotStale()
    ensures !IsStale(200, "")
  {
  }

  lemma CurrentIsNotEmpty(source: Source, d: Auth)
    requires Random(source)
    ensures Current(source, d).nonce != "" && Current(source, Current(source, d)) == Current(source, d)
  {
  }

  /** A session's nonce, used on the request it was drawn for, is accepted. */
  lemma OnceAccepted(o: Options, source: Source, d: Auth, uri: string, cnonce: string)
    requires o.singleUseNonce
    ensures var answer := Answer(o.hashes, o.account, source(d.drawn + 1), POST, uri, "00000001", cnonce);
            var r := Request(POST, answer, [source(d.drawn)]);
            && ReplyTo(o, source, Issue(source, d), r) == Accepted
            && StateAfter(o, source, Issue(source, d), r) == Spend(Issue(source, d), source(d.drawn))
  {
    hide Answer, ReplyTo, StateAfter;
    SingleUseAnswerMeets(o, source, Issue(source, d), source(d.drawn), source(d.drawn + 1), uri, cnonce);
  }
}
