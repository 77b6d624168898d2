/** One challenge and its answer, from end to end: the client reads what the
    server wrote, and the server reads what the client answered.
 */
module DigestExchange {
  import opened Common
  import opened DigestText
  import opened DigestParams
  import opened DigestHeader

  // ----- reading the answer

  /** What the Authorization header says, parameter by parameter. */
  function HeaderMap(
    h: Hashes, a: Account, c: Challenge, ha1: string, verb: string, uri: string, nc: string, cnonce: string): Params
  {
    map["username" := a.username, "realm" := c.realm, "nonce" := c.nonce, "uri" := uri,
        "response" := Response(h, c, ha1, verb, uri, nc, cnonce)]
    + OptionalMap(c, nc, cnonce)
  }

  function OptionalMap(c: Challenge, nc: string, cnonce: string): Params {
    (if c.algorithm != "" then map["algorithm" := c.algorithm] else map[])
    + (if c.opaqueData != "" then map["opaque" := c.opaqueData] else map[])
    + (if c.qop == "auth" then map["qop" := "auth", "nc" := nc, "cnonce" := cnonce] else map[])
  }

  lemma {:induction false} ToMapPlus(m: Params, ps: seq<Param>)
    ensures ToMap(m, ps) == m + ToMap(map[], ps)
    decreases |ps|
  {
    if ps != [] {
      var first := map[ps[0].key := ps[0].value];
      ToMapPlus(m[ps[0].key := ps[0].value], ps[1..]);
      ToMapPlus(first, ps[1..]);
      assert m + (first + ToMap(map[], ps[1..])) == m[ps[0].key := ps[0].value] + ToMap(map[], ps[1..]);
    }
  }

  lemma {:induction false} ToMapConcat(ps: seq<Param>, qs: seq<Param>)
    ensures ToMap(map[], ps + qs) == ToMap(map[], ps) + ToMap(map[], qs)
    decreases |ps|
  {
    if ps == [] {
      assert ps + qs == qs;
      assert map[] + ToMap(map[], qs) == ToMap(map[], qs);
    } else {
      var first := map[ps[0].key := ps[0].value];
      assert (ps + qs)[1..] == ps[1..] + qs;
      ToMapPlus(first, ps[1..] + qs);
      ToMapPlus(first, ps[1..]);
      ToMapConcat(ps[1..], qs);
      assert first + (ToMap(map[], ps[1..]) + ToMap(map[], qs)) == (first + ToMap(map[], ps[1..])) + ToMap(map[], qs);
    }
  }

  lemma ToMapOne(p: Param)
    ensures ToMap(map[], [p]) == map[p.key := p.value]
  {
    assert [p][1..] == [];
  }

  lemma ToMapTwo(p: Param, q: Param)
    ensures ToMap(map[], [p, q]) == map[p.key := p.value, q.key := q.value]
  {
    ToMapOne(p);
    ToMapOne(q);
    ToMapConcat([p], [q]);
    assert [p, q] == [p] + [q];
  }

  lemma ToMapThree(p: Param, q: Param, r: Param)
    ensures ToMap(map[], [p, q, r]) == map[p.key := p.value, q.key := q.value, r.key := r.value]
  {
    ToMapTwo(p, q);
    ToMapOne(r);
    ToMapConcat([p, q], [r]);
    assert [p, q, r] == [p, q] + [r];
  }

  lemma ToMapFive(p: Param, q: Param, r: Param, s: Param, t: Param)
    ensures ToMap(map[], [p, q, r, s, t]) ==
            map[p.key := p.value, q.key := q.value, r.key := r.value, s.key := s.value, t.key := t.value]
  {
    assert [p, q, r, s, t] == [p, q, r] + [s, t];
    ToMapConcat([p, q, r], [s, t]);
    ToMapThree(p, q, r);
    ToMapTwo(s, t);
  }

  lemma OptionalMapped(c: Challenge, nc: string, cnonce: string)
    ensures ToMap(map[], OptionalParams(c, nc, cnonce)) == OptionalMap(c, nc, cnonce)
  {
    hide ToMap;
    var x := if c.algorithm != "" then [Bare("algorithm", c.algorithm)] else [];
    var y := if c.opaqueData != "" then [Quoted("opaque", c.opaqueData)] else [];
    var z := if c.qop == "auth" then [Bare("qop", "auth"), Bare("nc", nc), Quoted("cnonce", cnonce)] else [];
    ToMapConcat(x, y);
    ToMapConcat(x + y, z);
    ToMapNothing();
    ToMapOne(Bare("algorithm", c.algorithm));
    ToMapOne(Quoted("opaque", c.opaqueData));
    ToMapThree(Bare("qop", "auth"), Bare("nc", nc), Quoted("cnonce", cnonce));
  }

  lemma ToMapNothing()
    ensures ToMap(map[], []) == map[]
  {
  }

  lemma HeaderMapped(
    h: Hashes, a: Account, c: Challenge, ha1: string, verb: string, uri: string, nc: string, cnonce: string)
    ensures ToMap(map[], HeaderParams(h, a, c, ha1, verb, uri, nc, cnonce)) ==
            HeaderMap(h, a, c, ha1, verb, uri, nc, cnonce)
  {
    hide ToMap, OptionalParams, OptionalMap, Response;
    var user, realm, nonce := Quoted("username", a.username), Quoted("realm", c.realm), Quoted("nonce", c.nonce);
    var target, response := Quoted("uri", uri), Quoted("response", Response(h, c, ha1, verb, uri, nc, cnonce));
    ToMapConcat([user, realm, nonce, target, response], OptionalParams(c, nc, cnonce));
    ToMapFive(user, realm, nonce, target, response);
    OptionalMapped(c, nc, cnonce);
  }

  // ----- every header is well formed

  predicate LowerToken(key: string) {
    Token(key) && Lower(key) == key
  }

  /** Lower-case letters make a key. */
  lemma LettersAreToken(key: string)
    requires key != "" && forall i :: 0 <= i < |key| ==> 'a' <= key[i] <= 'z'
    ensures LowerToken(key)
  {
  }

  lemma KeysAreTokens()
    ensures LowerToken("username") && LowerToken("realm") && LowerToken("nonce") && LowerToken("uri")
    ensures LowerToken("response") && LowerToken("algorithm") && LowerToken("opaque") && LowerToken("qop")
    ensures LowerToken("nc") && LowerToken("cnonce") && LowerToken("stale")
    ensures Token("auth") && Token("true")
  {
    hide Token, Lower;
    LettersAreToken("username");
    LettersAreToken("realm");
    LettersAreToken("nonce");
    LettersAreToken("uri");
    LettersAreToken("response");
    LettersAreToken("algorithm");
    LettersAreToken("opaque");
    LettersAreToken("qop");
    LettersAreToken("nc");
    LettersAreToken("cnonce");
    LettersAreToken("stale");
    LettersAreToken("auth");
    LettersAreToken("true");
  }

  /** A challenge whose algorithm can be printed bare. */
  predicate Answerable(c: Challenge) {
    c.algorithm == "" || Token(c.algorithm)
  }

  lemma HeaderParamsPrintable(
    h: Hashes, a: Account, c: Challenge, ha1: string, verb: string, uri: string, nc: string, cnonce: string)
    requires Answerable(c) && Token(nc)
    ensures AllPrintable(HeaderParams(h, a, c, ha1, verb, uri, nc, cnonce))
  {
    hide Token, Lower, Response;
    KeysAreTokens();
  }

  /** Parsing the header that was printed gives back every parameter, whatever
      commas, quotes or backslashes the texts contain. */
  lemma HeaderRoundTrip(
    h: Hashes, a: Account, c: Challenge, ha1: string, verb: string, uri: string, nc: string, cnonce: string)
    requires Answerable(c) && Token(nc)
    ensures Parse(Header(h, a, c, ha1, verb, uri, nc, cnonce)) == Ok(HeaderMap(h, a, c, ha1, verb, uri, nc, cnonce))
  {
    hide *;
    var ps := HeaderParams(h, a, c, ha1, verb, uri, nc, cnonce);
    HeaderParamsPrintable(h, a, c, ha1, verb, uri, nc, cnonce);
    HeaderParamsPresent(h, a, c, ha1, verb, uri, nc, cnonce);
    HeaderIsPrinted(h, a, c, ha1, verb, uri, nc, cnonce);
    ParsePrinted(ps);
    HeaderMapped(h, a, c, ha1, verb, uri, nc, cnonce);
  }

  lemma HeaderParamsPresent(
    h: Hashes, a: Account, c: Challenge, ha1: string, verb: string, uri: string, nc: string, cnonce: string)
    ensures HeaderParams(h, a, c, ha1, verb, uri, nc, cnonce) != []
  {
    hide Response, OptionalParams;
  }

  // ----- reading a challenge

  /** The text between one separator and the next. */
  function SplitOn(s: string, separator: char): (parts: seq<string>)
    ensures |parts| >= 1
  {
    var i := IndexOf(s, separator);
    if i < 0 then [s] else [s[..i]] + SplitOn(s[i + 1..], separator)
  }

  predicate OffersAuth(qop: string) {
    exists i :: 0 <= i < |SplitOn(qop, ',')| && Trim(SplitOn(qop, ',')[i]) == "auth"
  }

  predicate Supported(algorithm: string) {
    Upper(algorithm) == "" || Upper(algorithm) == "MD5" || Upper(algorithm) == "SHA-256"
  }

  /** parseChallenge. */
  function ParseChallenge(header: string): Result<Challenge> {
    match Parse(header)
    case Err(m) => Err(m)
    case Ok(p) =>
      var algorithm := Get(p, "algorithm");
      if HasSuffix(Upper(algorithm), "-SESS") then Err("digest algorithm (session variant) is not supported")
      else if !Supported(algorithm) then Err("unsupported digest algorithm")
      else if "realm" !in p then Err("digest challenge has no realm")
      else if "nonce" !in p then Err("digest challenge has no nonce")
      else
        var qop := Get(p, "qop");
        if qop != "" && !OffersAuth(qop) then Err("digest challenge offers a qop that is not supported")
        else Ok(Challenge(p["realm"], p["nonce"], Get(p, "opaque"), if OffersAuth(qop) then "auth" else "", algorithm))
  }

  /** Splitting on commas loses nothing and leaves no comma. */
  lemma {:induction false} SplitOnExact(s: string)
    ensures Join(SplitOn(s, ',')) == s
    ensures forall i :: 0 <= i < |SplitOn(s, ',')| ==> ',' !in SplitOn(s, ',')[i]
    decreases |s|
  {
    var i := IndexOf(s, ',');
    if i >= 0 {
      SplitOnExact(s[i + 1..]);
      var rest := SplitOn(s[i + 1..], ',');
      assert ([s[..i]] + rest)[1..] == rest;
      assert s == s[..i] + "," + s[i + 1..];
    }
  }

  /** A challenge as a server may write it, with or without each part. */
  function ChallengeParams(
    realm: Option<string>, nonce: Option<string>, opaqueData: Option<string>, qop: Option<string>, algorithm: Option<string>)
    : seq<Param>
  {
    MaybeQuoted("realm", realm) + MaybeQuoted("nonce", nonce) + MaybeQuoted("opaque", opaqueData)
    + MaybeQuoted("qop", qop) + MaybeQuoted("algorithm", algorithm)
  }

  function MaybeQuoted(key: string, value: Option<string>): seq<Param> {
    if value.Some? then [Quoted(key, value.value)] else []
  }

  function MaybeMap(key: string, value: Option<string>): Params {
    if value.Some? then map[key := value.value] else map[]
  }

  function OrEmpty(value: Option<string>): string {
    if value.Some? then value.value else ""
  }

  lemma MaybeMapped(key: string, value: Option<string>)
    ensures ToMap(map[], MaybeQuoted(key, value)) == MaybeMap(key, value)
  {
    ToMapNothing();
    if value.Some? {
      ToMapOne(Quoted(key, value.value));
    }
  }

  lemma ChallengeMapped(
    realm: Option<string>, nonce: Option<string>, opaqueData: Option<string>, qop: Option<string>, algorithm: Option<string>)
    ensures ToMap(map[], ChallengeParams(realm, nonce, opaqueData, qop, algorithm)) ==
            MaybeMap("realm", realm) + MaybeMap("nonce", nonce) + MaybeMap("opaque", opaqueData)
            + MaybeMap("qop", qop) + MaybeMap("algorithm", algorithm)
  {
    hide ToMap, MaybeQuoted, MaybeMap;
    var a, b, c := MaybeQuoted("realm", realm), MaybeQuoted("nonce", nonce), MaybeQuoted("opaque", opaqueData);
    var d, e := MaybeQuoted("qop", qop), MaybeQuoted("algorithm", algorithm);
    ToMapConcat(a, b);
    ToMapConcat(a + b, c);
    ToMapConcat(a + b + c, d);
    ToMapConcat(a + b + c + d, e);
    MaybeMapped("realm", realm);
    MaybeMapped("nonce", nonce);
    MaybeMapped("opaque", opaqueData);
    MaybeMapped("qop", qop);
    MaybeMapped("algorithm", algorithm);
  }

  lemma OneMore(p: Params, key: string, value: Option<string>, other: string)
    requires key != other
    ensures var q := p + MaybeMap(key, value);
            && (other in q <==> other in p) && Get(q, other) == Get(p, other)
            && (key !in p ==> (key in q <==> value.Some?) && Get(q, key) == OrEmpty(value))
  {
  }

  lemma FiveMaybe(
    k: string, v: Option<string>, l: string, w: Option<string>, m: string, x: Option<string>,
    n: string, y: Option<string>, o: string, z: Option<string>)
    requires k != l && |l| == |k| < |m| < |o| && |n| < |k|
    ensures var p := MaybeMap(k, v) + MaybeMap(l, w) + MaybeMap(m, x) + MaybeMap(n, y) + MaybeMap(o, z);
            && (k in p <==> v.Some?) && Get(p, k) == OrEmpty(v)
            && (l in p <==> w.Some?) && Get(p, l) == OrEmpty(w)
            && Get(p, m) == OrEmpty(x) && Get(p, n) == OrEmpty(y) && Get(p, o) == OrEmpty(z)
  {
    hide Get, OrEmpty;
    var two := MaybeMap(k, v) + MaybeMap(l, w);
    var three := two + MaybeMap(m, x);
    var four := three + MaybeMap(n, y);
    One(k, v);
    OneMore(MaybeMap(k, v), l, w, k);
    OneMore(two, m, x, k);
    OneMore(two, m, x, l);
    OneMore(three, n, y, k);
    OneMore(three, n, y, l);
    OneMore(three, n, y, m);
    OneMore(four, o, z, k);
    OneMore(four, o, z, l);
    OneMore(four, o, z, m);
    OneMore(four, o, z, n);
  }

  lemma One(k: string, v: Option<string>)
    ensures (k in MaybeMap(k, v) <==> v.Some?) && Get(MaybeMap(k, v), k) == OrEmpty(v)
  {
  }

  lemma ChallengeMapGives(
    realm: Option<string>, nonce: Option<string>, opaqueData: Option<string>, qop: Option<string>, algorithm: Option<string>)
    ensures var p := ToMap(map[], ChallengeParams(realm, nonce, opaqueData, qop, algorithm));
            && ("realm" in p <==> realm.Some?) && Get(p, "realm") == OrEmpty(realm)
            && ("nonce" in p <==> nonce.Some?) && Get(p, "nonce") == OrEmpty(nonce)
            && Get(p, "opaque") == OrEmpty(opaqueData) && Get(p, "qop") == OrEmpty(qop)
            && Get(p, "algorithm") == OrEmpty(algorithm)
  {
    hide ToMap, ChallengeParams, MaybeMap, Get, OrEmpty;
    ChallengeMapped(realm, nonce, opaqueData, qop, algorithm);
    assert "realm" != "nonce";
    FiveMaybe("realm", realm, "nonce", nonce, "opaque", opaqueData, "qop", qop, "algorithm", algorithm);
  }

  lemma ChallengeParamsPrintable(
    realm: Option<string>, nonce: Option<string>, opaqueData: Option<string>, qop: Option<string>, algorithm: Option<string>)
    ensures AllPrintable(ChallengeParams(realm, nonce, opaqueData, qop, algorithm))
  {
    hide Token, Lower;
    KeysAreTokens();
  }

  /** Of all challenges a server may write, the client accepts exactly those
      with a realm, a nonce, no algorithm but MD5 and SHA-256, and a qop list,
      if any, that has auth in it; and it reads them as they were meant. */
  lemma ChallengeReads(
    realm: Option<string>, nonce: Option<string>, opaqueData: Option<string>, qop: Option<string>, algorithm: Option<string>)
    ensures var ps := ChallengeParams(realm, nonce, opaqueData, qop, algorithm);
            var r := ParseChallenge("Digest " + Print(ps));
            && (r.Ok? <==> realm.Some? && nonce.Some? && Supported(OrEmpty(algorithm))
                           && (OrEmpty(qop) == "" || OffersAuth(OrEmpty(qop))))
            && (r.Ok? ==> r.value == Challenge(OrEmpty(realm), OrEmpty(nonce), OrEmpty(opaqueData),
                                               if OrEmpty(qop) == "" then "" else "auth", OrEmpty(algorithm)))
  {
    hide Print, ToMap, Supported, OffersAuth, AllPrintable, Upper;
    var ps := ChallengeParams(realm, nonce, opaqueData, qop, algorithm);
    ChallengeParamsPrintable(realm, nonce, opaqueData, qop, algorithm);
    ChallengeMapGives(realm, nonce, opaqueData, qop, algorithm);
    NoAuthInNothing();
    SessionIsUnsupported(OrEmpty(algorithm));
    if ps == [] {
      NothingParses();
    } else {
      hide Parse;
      ParsePrinted(ps);
    }
  }

  lemma NothingParses()
    ensures Parse("Digest " + Print([])).Err?
  {
    hide Parse;
    EmptyDigest();
    assert "Digest " + Print([]) == "Digest ";
  }

  lemma EmptyDigest()
    ensures Parse("Digest ").Err?
  {
    assert Trim("Digest ") == "Digest" by {
      assert "Digest "[..6] == "Digest";
      assert TrimLeft("Digest ") == "Digest ";
      assert TrimRight("Digest ") == TrimRight("Digest");
    }
    IndexOfScheme("");
    assert "Digest" + "" == "Digest" && "Digest"[6..] == "";
    assert Split("") == [];
  }

  lemma NoAuthInNothing()
    ensures !OffersAuth("")
  {
    assert SplitOn("", ',') == [""];
  }

  /** The separate test for session variants changes the message, not what is
      accepted. */
  lemma SessionIsUnsupported(algorithm: string)
    ensures HasSuffix(Upper(algorithm), "-SESS") ==> !Supported(algorithm)
  {
    assert "SHA-256"[2..][0] == 'A' && "-SESS"[0] == '-';
  }

  const UNAUTHORIZED := 401

  /** IsStaleChallenge. */
  predicate IsStale(status: int, header: string) {
    status == UNAUTHORIZED && Parse(header).Ok? && Lower(Get(Parse(header).value, "stale")) == "true"
  }

  lemma UpperIsToken(s: string)
    requires Supported(s)
    ensures s == "" || Token(s)
  {
    forall i | 0 <= i < |s| ensures TokenChar(s[i]) {
      assert Upper(s)[i] == UpperChar(s[i]);
    }
  }

  /** Every challenge the client accepts can be answered by a header that reads
      back, and its hash is the one it names. */
  lemma AcceptedChallengeIsAnswerable(header: string, h: Hashes, text: string)
    requires ParseChallenge(header).Ok?
    ensures var c := ParseChallenge(header).value;
            && Answerable(c)
            && (c.qop == "" || c.qop == "auth")
            && DigestHash(h, c.algorithm, text) == (if Upper(c.algorithm) == "SHA-256" then h.sha256(text) else h.md5(text))
  {
    hide Parse, OffersAuth;
    var c := ParseChallenge(header).value;
    UpperIsToken(c.algorithm);
    NoSessionSuffix(c.algorithm);
  }

  lemma NoSessionSuffix(algorithm: string)
    requires Supported(algorithm)
    ensures TrimSuffix(algorithm, "-sess") == algorithm
  {
    if |algorithm| == 7 {
      assert Upper(algorithm)[2] == UpperChar(algorithm[2]);
      assert "SHA-256"[2] == 'A';
      assert algorithm[2..][0] == algorithm[2];
      assert "-sess"[0] == '-';
    }
  }

  /** Whatever challenge text the client accepts, and whatever its account and
      request, the header it answers with reads back as it was meant. */
  lemma AnswerReadsBack(
    h: Hashes, a: Account, challenge: string, ha1: string, verb: string, uri: string, nc: string, cnonce: string)
    requires ParseChallenge(challenge).Ok? && Token(nc)
    ensures var c := ParseChallenge(challenge).value;
            Parse(Header(h, a, c, ha1, verb, uri, nc, cnonce)) == Ok(HeaderMap(h, a, c, ha1, verb, uri, nc, cnonce))
  {
    hide *;
    AcceptedChallengeIsAnswerable(challenge, h, "");
    HeaderRoundTrip(h, a, ParseChallenge(challenge).value, ha1, verb, uri, nc, cnonce);
  }

  // ----- the mock server's side

  /** The challenge the mock server writes. */
  function ServerChallenge(nonce: string, stale: bool): string {
    "Digest realm=" + Quote(REALM) + (", qop=" + Quote("auth")) + (", nonce=" + Quote(nonce))
    + (if stale then ", stale=true" else "")
  }

  function ServerParams(nonce: string, stale: bool): seq<Param> {
    [Quoted("realm", REALM), Quoted("qop", "auth"), Quoted("nonce", nonce)]
    + if stale then [Bare("stale", "true")] else []
  }

  function ServerMap(nonce: string, stale: bool): Params {
    map["realm" := REALM, "qop" := "auth", "nonce" := nonce] + if stale then map["stale" := "true"] else map[]
  }

  lemma ServerChallengeIsPrinted(nonce: string, stale: bool)
    ensures ServerChallenge(nonce, stale) == "Digest " + Print(ServerParams(nonce, stale))
  {
    hide Quote, TextOf, Rest, Print;
    var realm, qop, nn := Quoted("realm", REALM), Quoted("qop", "auth"), Quoted("nonce", nonce);
    var tail := if stale then [Bare("stale", "true")] else [];
    assert ServerParams(nonce, stale) == [realm] + (([qop] + [nn]) + tail);
    PrintIsRest(realm, ([qop] + [nn]) + tail);
    RestConcat([qop], [nn]);
    RestConcat([qop] + [nn], tail);
    RestQuoted("qop", ", qop=", "auth");
    RestQuoted("nonce", ", nonce=", nonce);
    RestQuoted("stale", ", stale=", "true");
    RestNothing();
    RealmText();
    ServerGlue("Digest ", TextOf(realm), ", qop=" + Quote("auth"), ", nonce=" + Quote(nonce), if stale then ", stale=true" else "");
  }

  lemma RealmText()
    ensures "Digest " + TextOf(Quoted("realm", REALM)) == "Digest realm=" + Quote(REALM)
  {
    hide Quote;
    QuotedText("realm", REALM);
    assert "Digest " + ("realm" + "=" + Quote(REALM)) == "Digest realm=" + Quote(REALM);
  }

  lemma ServerGlue(scheme: string, realm: string, qop: string, nonce: string, stale: string)
    ensures scheme + (realm + ((qop + nonce) + stale)) == scheme + realm + qop + nonce + stale
  {
  }

  lemma ServerMapped(nonce: string, stale: bool)
    ensures ToMap(map[], ServerParams(nonce, stale)) == ServerMap(nonce, stale)
  {
    hide ToMap;
    var realm, qop, nn := Quoted("realm", REALM), Quoted("qop", "auth"), Quoted("nonce", nonce);
    ToMapConcat([realm, qop, nn], if stale then [Bare("stale", "true")] else []);
    ToMapThree(realm, qop, nn);
    ToMapOne(Bare("stale", "true"));
    ToMapNothing();
  }

  lemma ServerParses(nonce: string, stale: bool)
    ensures Parse(ServerChallenge(nonce, stale)) == Ok(ServerMap(nonce, stale))
  {
    hide Print, Quote, Parse, ToMap, Token, Lower, ServerChallenge, ServerMap;
    KeysAreTokens();
    ServerChallengeIsPrinted(nonce, stale);
    ParsePrinted(ServerParams(nonce, stale));
    ServerMapped(nonce, stale);
  }

  lemma AuthOffered()
    ensures OffersAuth("auth")
  {
    assert IndexOf("auth", ',') == -1;
    TrimKeeps("auth");
    assert Trim(SplitOn("auth", ',')[0]) == "auth";
  }

  lemma ServerMapGives(nonce: string, stale: bool)
    ensures var p := ServerMap(nonce, stale);
            && "realm" in p && p["realm"] == REALM && "nonce" in p && p["nonce"] == nonce
            && Get(p, "qop") == "auth" && Get(p, "algorithm") == "" && Get(p, "opaque") == ""
            && Get(p, "stale") == if stale then "true" else ""
  {
    assert "realm" != "qop" && "realm" != "nonce" && "qop" != "nonce";
    assert "stale" != "realm" && "stale" != "nonce" && "stale" != "qop";
  }

  /** The client reads back the challenge the server wrote, whatever the nonce. */
  lemma ChallengeRoundTrip(nonce: string, stale: bool)
    ensures ParseChallenge(ServerChallenge(nonce, stale)) == Ok(Challenge(REALM, nonce, "", "auth", ""))
    ensures IsStale(UNAUTHORIZED, ServerChallenge(nonce, stale)) == stale
  {
    hide Parse, ServerMap, OffersAuth, ServerChallenge;
    ServerParses(nonce, stale);
    ServerMapGives(nonce, stale);
    AuthOffered();
    assert Upper("") == "" && Lower("true") == "true" && Lower("") == "";
  }

  /** responseMatches. */
  predicate ResponseMatches(h: Hashes, server: Account, verb: string, p: Params, nonce: string) {
    var ha1 := Ha1(h, server, REALM, "MD5");
    var ha2 := Ha2(h, "MD5", verb, Get(p, "uri"));
    var want := DigestHash(h, "MD5", ha1 + ResponseTail(nonce, Get(p, "qop"), Get(p, "nc"), Get(p, "cnonce"), ha2));
    Get(p, "response") == want && Get(p, "username") == server.username
  }

  lemma HeaderMapGives(
    h: Hashes, a: Account, c: Challenge, ha1: string, verb: string, uri: string, nc: string, cnonce: string)
    requires c.algorithm == "" && c.opaqueData == ""
    ensures var p := HeaderMap(h, a, c, ha1, verb, uri, nc, cnonce);
            && Get(p, "username") == a.username && Get(p, "nonce") == c.nonce && Get(p, "uri") == uri
            && Get(p, "response") == Response(h, c, ha1, verb, uri, nc, cnonce)
            && if c.qop == "auth" then
                 Get(p, "qop") == "auth" && Get(p, "nc") == nc && Get(p, "cnonce") == cnonce
               else
                 Get(p, "qop") == "" && "nc" !in p && "cnonce" !in p
  {
    hide Response;
  }

  lemma Md5(h: Hashes, text: string)
    ensures DigestHash(h, "MD5", text) == h.md5(text) && DigestHash(h, "", text) == h.md5(text)
  {
    assert Upper("MD5") == "MD5" && Upper("") == "";
  }

  ghost predicate Injective(f: string -> string) {
    forall x, y :: f(x) == f(y) ==> x == y
  }

  /** An answer made with the account a to a challenge of the mock server. */
  function Answer(h: Hashes, a: Account, nonce: string, verb: string, uri: string, nc: string, cnonce: string): string {
    var c := Challenge(REALM, nonce, "", "auth", "");
    Header(h, a, c, Ha1(h, a, c.realm, c.algorithm), verb, uri, nc, cnonce)
  }

  /** The server reads back the answer and its nonce; its own credentials always
      match, and when the hash has no collisions no others do. */
  lemma AnswerAccepted(
    h: Hashes, client: Account, server: Account, nonce: string, verb: string, uri: string, nc: string, cnonce: string)
    requires Token(nc)
    ensures var r := Parse(Answer(h, client, nonce, verb, uri, nc, cnonce));
            && r.Ok?
            && Get(r.value, "nonce") == nonce && Get(r.value, "nc") == nc
            && (client == server ==> ResponseMatches(h, server, verb, r.value, nonce))
            && (Injective(h.md5) ==> (ResponseMatches(h, server, verb, r.value, nonce) <==> client == server))
  {
    hide Parse, Header, HeaderMap, DigestHash, ResponseTail;
    var c := Challenge(REALM, nonce, "", "auth", "");
    var ha1 := Ha1(h, client, REALM, "");
    HeaderRoundTrip(h, client, c, ha1, verb, uri, nc, cnonce);
    HeaderMapGives(h, client, c, ha1, verb, uri, nc, cnonce);
    var ha2 := h.md5(verb + (":" + uri));
    Md5(h, verb + (":" + uri));
    var tail := ResponseTail(nonce, "auth", nc, cnonce, ha2);
    var mine, theirs := Ha1(h, client, REALM, ""), Ha1(h, server, REALM, "MD5");
    Md5(h, mine + tail);
    Md5(h, theirs + tail);
    Ha1Md5(h, client);
    Ha1Md5(h, server);
    if Injective(h.md5) && mine + tail == theirs + tail && client.username == server.username {
      SamePassword(h, client, server, tail);
    }
  }

  lemma Ha1Md5(h: Hashes, a: Account)
    ensures var text := a.username + (":" + (REALM + (":" + a.password)));
            Ha1(h, a, REALM, "") == h.md5(text) && Ha1(h, a, REALM, "MD5") == h.md5(text)
  {
    hide DigestHash;
    Md5(h, a.username + (":" + (REALM + (":" + a.password))));
  }

  lemma SamePassword(h: Hashes, a: Account, b: Account, tail: string)
    requires Injective(h.md5) && a.username == b.username
    requires Ha1(h, a, REALM, "") + tail == Ha1(h, b, REALM, "MD5") + tail
    ensures a == b
  {
    hide DigestHash, Ha1;
    Ha1Md5(h, a);
    Ha1Md5(h, b);
    CancelSuffix(Ha1(h, a, REALM, ""), Ha1(h, b, REALM, "MD5"), tail);
    CancelPrefix(a.username, ":" + (REALM + (":" + a.password)), ":" + (REALM + (":" + b.password)));
    CancelPrefix(":", REALM + (":" + a.password), REALM + (":" + b.password));
    CancelPrefix(REALM, ":" + a.password, ":" + b.password);
    CancelPrefix(":", a.password, b.password);
  }

  lemma CancelSuffix(a: string, b: string, tail: string)
    requires a + tail == b + tail
    ensures a == b
  {
    assert |a| == |b|;
    assert (a + tail)[..|a|] == a && (b + tail)[..|b|] == b;
  }

  lemma CancelPrefix(head: string, a: string, b: string)
    requires head + a == head + b
    ensures a == b
  {
    assert (head + a)[|head|..] == a && (head + b)[|head|..] == b;
  }

  /** A server that offers no qop is answered in the older form, without count
      or client nonce, and its check of that form matches too. */
  lemma LegacyAnswerMatches(h: Hashes, a: Account, nonce: string, verb: string, uri: string, nc: string, cnonce: string)
    requires Token(nc)
    ensures var c := Challenge(REALM, nonce, "", "", "");
            var r := Parse(Header(h, a, c, Ha1(h, a, REALM, ""), verb, uri, nc, cnonce));
            && r.Ok? && "nc" !in r.value && "cnonce" !in r.value
            && ResponseMatches(h, a, verb, r.value, nonce)
  {
    hide Parse, Header, HeaderMap, DigestHash, ResponseTail;
    var c := Challenge(REALM, nonce, "", "", "");
    var ha1 := Ha1(h, a, REALM, "");
    HeaderRoundTrip(h, a, c, ha1, verb, uri, nc, cnonce);
    HeaderMapGives(h, a, c, ha1, verb, uri, nc, cnonce);
    var ha2 := h.md5(verb + (":" + uri));
    Md5(h, verb + (":" + uri));
    Ha1Md5(h, a);
    LegacyTail(nonce, nc, cnonce, "", "", ha2);
    Md5(h, ha1 + ResponseTail(nonce, "", nc, cnonce, ha2));
  }

  lemma LegacyTail(nonce: string, nc: string, cnonce: string, otherNc: string, otherCnonce: string, ha2: string)
    ensures ResponseTail(nonce, "", nc, cnonce, ha2) == ResponseTail(nonce, "", otherNc, otherCnonce, ha2)
  {
  }

  /** The whole exchange: the client accepts what the server wrote, and the
      server accepts what the client answers when they hold the same account. */
  lemma ExchangeSucceeds(
    h: Hashes, a: Account, nonce: string, stale: bool, verb: string, uri: string, nc: string, cnonce: string)
    requires Token(nc)
    ensures ParseChallenge(ServerChallenge(nonce, stale)).Ok?
    ensures var c := ParseChallenge(ServerChallenge(nonce, stale)).value;
            var r := Parse(Header(h, a, c, Ha1(h, a, c.realm, c.algorithm), verb, uri, nc, cnonce));
            r.Ok? && Get(r.value, "nonce") == nonce && ResponseMatches(h, a, verb, r.value, nonce)
  {
    hide *;
    ChallengeRoundTrip(nonce, stale);
    AnswerAccepted(h, a, a, nonce, verb, uri, nc, cnonce);
    AnswerIs(h, a, nonce, verb, uri, nc, cnonce);
  }

  lemma AnswerIs(h: Hashes, a: Account, nonce: string, verb: string, uri: string, nc: string, cnonce: string)
    ensures var c := Challenge(REALM, nonce, "", "auth", "");
            Answer(h, a, nonce, verb, uri, nc, cnonce) ==
            Header(h, a, c, Ha1(h, a, c.realm, c.algorithm), verb, uri, nc, cnonce)
  {
    hide Header;
  }
}
