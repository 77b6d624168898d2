/** What digest authentication puts on the wire and what it understands, spelled
    out character by character: the hashes of section 3.4.1 of RFC 7616, the
    lists of section 3.3, and words that are read in any letter case.
 */
module DigestWire {
  import opened Common
  import opened DigestText
  import opened DigestParams
  import opened DigestHeader
  import opened DigestExchange

  // ----- words in any letter case

  predicate SameLetter(c: char, d: char) {
    || c == d
    || ('a' <= c <= 'z' && c as int == d as int + 32)
    || ('A' <= c <= 'Z' && c as int + 32 == d as int)
  }

  /** Equal but for the case of letters. */
  predicate SameWord(s: string, t: string) {
    |s| == |t| && forall i :: 0 <= i < |s| ==> SameLetter(s[i], t[i])
  }

  lemma UpperIsSameWord(s: string, name: string)
    requires forall i :: 0 <= i < |name| ==> !('a' <= name[i] <= 'z')
    ensures Upper(s) == name <==> SameWord(s, name)
  {
    if |s| == |name| {
      forall i | 0 <= i < |s| ensures Upper(s)[i] == name[i] <==> SameLetter(s[i], name[i]) {
        assert Upper(s)[i] == UpperChar(s[i]);
      }
    }
  }

  lemma LowerIsSameWord(s: string, name: string)
    requires forall i :: 0 <= i < |name| ==> !('A' <= name[i] <= 'Z')
    ensures Lower(s) == name <==> SameWord(s, name)
  {
    if |s| == |name| {
      forall i | 0 <= i < |s| ensures Lower(s)[i] == name[i] <==> SameLetter(s[i], name[i]) {
        assert Lower(s)[i] == LowerChar(s[i]);
      }
    }
  }

  /** The client supports no algorithm named, MD5 and SHA-256, in any case. */
  lemma SupportedExactly(algorithm: string)
    ensures Supported(algorithm) <==> algorithm == "" || SameWord(algorithm, "MD5") || SameWord(algorithm, "SHA-256")
  {
    UpperIsSameWord(algorithm, "MD5");
    UpperIsSameWord(algorithm, "SHA-256");
  }

  // ----- lists of qop values

  /** Between two commas, or an end, and ignoring space, the list has "auth". */
  predicate AuthAt(list: string, start: int, at: int, end: int) {
    && 0 <= start <= at <= at + 4 <= end <= |list|
    && (start == 0 || list[start - 1] == ',') && (end == |list| || list[end] == ',')
    && Blank(list[start..at]) && list[at..at + 4] == "auth" && Blank(list[at + 4..end])
  }

  lemma {:induction false} TrimLeftOf(l: string, t: string)
    requires Blank(l) && t != "" && !IsSpace(t[0])
    ensures TrimLeft(l + t) == t
    decreases |l|
  {
    if l == "" {
      assert l + t == t;
    } else {
      assert (l + t)[1..] == l[1..] + t;
      TrimLeftOf(l[1..], t);
    }
  }

  lemma {:induction false} TrimRightOf(t: string, r: string)
    requires Blank(r) && t != "" && !IsSpace(t[|t| - 1])
    ensures TrimRight(t + r) == t
    decreases |r|
  {
    if r == "" {
      assert t + r == t;
    } else {
      var k := |r| - 1;
      assert (t + r)[..|t + r| - 1] == t + r[..k];
      TrimRightOf(t, r[..k]);
    }
  }

  /** s is "auth" between blanks. */
  predicate AuthWithin(s: string, at: int) {
    0 <= at <= |s| - 4 && Blank(s[..at]) && s[at..at + 4] == "auth" && Blank(s[at + 4..])
  }

  lemma TrimIsAuth(s: string)
    ensures Trim(s) == "auth" <==> exists at :: AuthWithin(s, at)
  {
    if Trim(s) == "auth" {
      TrimExact(s);
      var l, r :| s == l + Trim(s) + r && Blank(l) && Blank(r);
      assert s[..|l|] == l && s[|l|..|l| + 4] == "auth" && s[|l| + 4..] == r;
      assert AuthWithin(s, |l|);
    }
    if at :| AuthWithin(s, at) {
      var l, r := s[..at], s[at + 4..];
      assert s == l + ("auth" + r);
      TrimLeftOf(l, "auth" + r);
      TrimRightOf("auth", r);
    }
  }

  lemma OffersOneOf(q: string, comma: int)
    requires 0 <= comma < |q| && comma == IndexOf(q, ',')
    ensures OffersAuth(q) <==> Trim(q[..comma]) == "auth" || OffersAuth(q[comma + 1..])
  {
    hide Trim;
    var parts, rest := SplitOn(q, ','), SplitOn(q[comma + 1..], ',');
    assert parts == [q[..comma]] + rest;
    if Trim(q[..comma]) == "auth" {
      assert Trim(parts[0]) == "auth";
    }
    forall i | 0 <= i < |rest| ensures parts[i + 1] == rest[i] {
    }
    if i :| 0 <= i < |rest| && Trim(rest[i]) == "auth" {
      assert Trim(parts[i + 1]) == "auth";
    }
    if i :| 0 <= i < |parts| && Trim(parts[i]) == "auth" {
      assert i == 0 || parts[i] == rest[i - 1];
    }
  }

  lemma FirstIsAuth(q: string, end: int)
    requires 0 <= end <= |q| && (end == |q| || q[end] == ',')
    ensures forall at :: AuthWithin(q[..end], at) <==> AuthAt(q, 0, at, end)
  {
    forall at ensures AuthWithin(q[..end], at) <==> AuthAt(q, 0, at, end) {
      if 0 <= at <= end - 4 {
        assert q[..end][..at] == q[0..at] && q[..end][at..at + 4] == q[at..at + 4];
        assert q[..end][at + 4..] == q[at + 4..end];
      }
    }
  }

  lemma LaterIsAuth(q: string, from: int, start: int, at: int, end: int)
    requires 0 < from <= |q| && q[from - 1] == ',' && from <= start
    ensures AuthAt(q, start, at, end) <==> AuthAt(q[from..], start - from, at - from, end - from)
  {
    if start <= at <= at + 4 <= end <= |q| {
      var t := q[from..];
      assert t[start - from..at - from] == q[start..at] && t[at - from..at - from + 4] == q[at..at + 4];
      assert t[at - from + 4..end - from] == q[at + 4..end];
    }
  }

  lemma NoCommaWithin(q: string, start: int, at: int, end: int)
    requires AuthAt(q, start, at, end)
    ensures ',' !in q[start..end]
  {
    assert q[start..end] == q[start..at] + "auth" + q[at + 4..end];
  }

  /** A list offers auth exactly when one of its entries, between commas and
      without the space around it, is that word and nothing more. */
  lemma {:induction false} OffersAuthExactly(q: string)
    ensures OffersAuth(q) <==> exists start, at, end :: AuthAt(q, start, at, end)
    decreases |q|
  {
    hide Trim, AuthAt, AuthWithin, OffersAuth;
    var comma := IndexOf(q, ',');
    if comma < 0 {
      NoCommaOffers(q);
      TrimIsAuth(q);
      FirstIsAuth(q, |q|);
      assert q[..|q|] == q;
      forall start, at, end | AuthAt(q, start, at, end) ensures AuthAt(q, 0, at, |q|) {
        WholeList(q, start, at, end);
      }
    } else {
      var rest := q[comma + 1..];
      OffersOneOf(q, comma);
      OffersAuthExactly(rest);
      TrimIsAuth(q[..comma]);
      FirstIsAuth(q, comma);
      if start, at, end :| AuthAt(rest, start, at, end) {
        AuthStarts(rest, start, at, end);
        LaterIsAuth(q, comma + 1, start + comma + 1, at + comma + 1, end + comma + 1);
        assert AuthAt(q, start + comma + 1, at + comma + 1, end + comma + 1);
      }
      forall start, at, end | AuthAt(q, start, at, end)
        ensures AuthAt(q, 0, at, comma) || AuthAt(rest, start - comma - 1, at - comma - 1, end - comma - 1)
      {
        FirstOrLater(q, comma, start, at, end);
        if start > comma {
          LaterIsAuth(q, comma + 1, start, at, end);
        }
      }
    }
  }

  lemma NoCommaOffers(q: string)
    requires IndexOf(q, ',') < 0
    ensures OffersAuth(q) <==> Trim(q) == "auth"
  {
    hide Trim;
    assert SplitOn(q, ',') == [q];
    if Trim(q) == "auth" {
      assert Trim(SplitOn(q, ',')[0]) == "auth";
    }
  }

  lemma AuthStarts(q: string, start: int, at: int, end: int)
    requires AuthAt(q, start, at, end)
    ensures 0 <= start
  {
  }

  lemma WholeList(q: string, start: int, at: int, end: int)
    requires ',' !in q && AuthAt(q, start, at, end)
    ensures start == 0 && end == |q|
  {
  }

  lemma FirstOrLater(q: string, comma: int, start: int, at: int, end: int)
    requires 0 <= comma < |q| && q[comma] == ',' && ',' !in q[..comma] && AuthAt(q, start, at, end)
    ensures (start == 0 && end == comma) || start > comma
  {
    NoCommaWithin(q, start, at, end);
    assert forall i :: 0 <= i < comma ==> q[i] != ',' by {
      assert forall i :: 0 <= i < comma ==> q[i] == q[..comma][i];
    }
    assert forall i :: start <= i < end ==> q[i] != ',' by {
      assert forall i :: start <= i < end ==> q[i] == q[start..end][i - start];
    }
  }

  /** auth among others is enough; auth-int alone is not. */
  lemma QopExamples()
    ensures OffersAuth("auth,auth-int") && OffersAuth("auth-int, auth") && !OffersAuth("auth-int")
  {
    hide OffersAuth, AuthAt;
    OffersAuthExactly("auth,auth-int");
    OffersAuthExactly("auth-int, auth");
    AuthFirst();
    AuthLater();
    NoAuthInt();
  }

  lemma AuthFirst()
    ensures AuthAt("auth,auth-int", 0, 0, 4)
  {
    assert "auth,auth-int"[0..4] == "auth";
  }

  lemma AuthLater()
    ensures AuthAt("auth-int, auth", 9, 10, 14)
  {
    assert "auth-int, auth"[10..14] == "auth";
    assert "auth-int, auth"[9..10] == " ";
  }

  lemma NoAuthInt()
    ensures !OffersAuth("auth-int")
  {
    hide Trim;
    assert IndexOf("auth-int", ',') == -1;
    TrimKeeps("auth-int");
    NoCommaOffers("auth-int");
  }

  /** A challenge of any content is accepted exactly when it has a realm and a
      nonce, names no algorithm but MD5 and SHA-256, and lists auth if it lists
      anything; it is then read as it was meant. */
  lemma ChallengeReadsExactly(
    realm: Option<string>, nonce: Option<string>, opaqueData: Option<string>, qop: Option<string>, algorithm: Option<string>)
    ensures var r := ParseChallenge("Digest " + Print(ChallengeParams(realm, nonce, opaqueData, qop, algorithm)));
            && (r.Ok? <==>
                && realm.Some? && nonce.Some?
                && (algorithm.None? || algorithm.value == ""
                    || SameWord(algorithm.value, "MD5") || SameWord(algorithm.value, "SHA-256"))
                && (qop.None? || qop.value == "" || exists start, at, end :: AuthAt(qop.value, start, at, end)))
            && (r.Ok? ==>
                r.value == Challenge(realm.value, nonce.value, OrEmpty(opaqueData),
                                     if qop.None? || qop.value == "" then "" else "auth", OrEmpty(algorithm)))
  {
    hide Print, Parse, ParseChallenge, ChallengeParams, Supported, OffersAuth, SameWord, AuthAt;
    ChallengeReads(realm, nonce, opaqueData, qop, algorithm);
    SupportedExactly(OrEmpty(algorithm));
    OffersAuthExactly(OrEmpty(qop));
    NothingNamed();
  }

  lemma NothingNamed()
    ensures Supported("")
  {
    assert Upper("") == "";
  }

  // ----- the response

  /** What an answer must say: over the credentials, the challenge, the count and
      the request, in the order of section 3.4.1 of RFC 7616, with SHA-256 when
      the challenge names it and MD5 otherwise; and in the older order, without
      count and client nonce, when the challenge offers no qop. */
  predicate SaysAll(
    h: Hashes, a: Account, c: Challenge, verb: string, uri: string, nc: string, cnonce: string, p: Params)
  {
    var hash := if SameWord(c.algorithm, "SHA-256") then h.sha256 else h.md5;
    var account := hash(a.username + ":" + c.realm + ":" + a.password);
    var request := hash(verb + ":" + uri);
    && (c.qop == "auth" ==>
        && Get(p, "response") == hash(account + ":" + c.nonce + ":" + nc + ":" + cnonce + ":auth:" + request)
        && Get(p, "qop") == "auth" && Get(p, "nc") == nc && Get(p, "cnonce") == cnonce)
    && (c.qop != "auth" ==>
        && Get(p, "response") == hash(account + ":" + c.nonce + ":" + request)
        && "qop" !in p && "nc" !in p && "cnonce" !in p)
    && Get(p, "username") == a.username && Get(p, "realm") == c.realm
    && Get(p, "nonce") == c.nonce && Get(p, "uri") == uri
    && Get(p, "opaque") == c.opaqueData && Get(p, "algorithm") == c.algorithm
  }

  /** To any challenge the client accepts, whatever its account, its request and
      the texts in either, it answers with a header that says all of that. */
  lemma ResponseOnTheWire(
    h: Hashes, a: Account, challenge: string, verb: string, uri: string, nc: string, cnonce: string)
    requires ParseChallenge(challenge).Ok? && Token(nc)
    ensures var c := ParseChallenge(challenge).value;
            var r := Parse(Header(h, a, c, Ha1(h, a, c.realm, c.algorithm), verb, uri, nc, cnonce));
            r.Ok? && SaysAll(h, a, c, verb, uri, nc, cnonce, r.value)
  {
    hide *;
    var c := ParseChallenge(challenge).value;
    var ha1 := Ha1(h, a, c.realm, c.algorithm);
    AnswerReadsBack(h, a, challenge, ha1, verb, uri, nc, cnonce);
    HashedFor(h, challenge);
    MapSaysAll(h, a, c, verb, uri, nc, cnonce);
  }

  lemma MapSaysAll(h: Hashes, a: Account, c: Challenge, verb: string, uri: string, nc: string, cnonce: string)
    requires SameWord(c.algorithm, "SHA-256") ==> forall text :: DigestHash(h, c.algorithm, text) == h.sha256(text)
    requires !SameWord(c.algorithm, "SHA-256") ==> forall text :: DigestHash(h, c.algorithm, text) == h.md5(text)
    ensures SaysAll(h, a, c, verb, uri, nc, cnonce,
                    HeaderMap(h, a, c, Ha1(h, a, c.realm, c.algorithm), verb, uri, nc, cnonce))
  {
    hide DigestHash, HeaderMap, Response, Ha1, SameWord, Get;
    HeaderMapHas(h, a, c, Ha1(h, a, c.realm, c.algorithm), verb, uri, nc, cnonce);
    if SameWord(c.algorithm, "SHA-256") {
      ResponseIs(h, a, c, verb, uri, nc, cnonce, h.sha256);
    } else {
      ResponseIs(h, a, c, verb, uri, nc, cnonce, h.md5);
    }
  }

  lemma HashedFor(h: Hashes, challenge: string)
    requires ParseChallenge(challenge).Ok?
    ensures var c := ParseChallenge(challenge).value;
            && (SameWord(c.algorithm, "SHA-256") ==> forall text :: DigestHash(h, c.algorithm, text) == h.sha256(text))
            && (!SameWord(c.algorithm, "SHA-256") ==> forall text :: DigestHash(h, c.algorithm, text) == h.md5(text))
  {
    hide *;
    var c := ParseChallenge(challenge).value;
    Sha256IsUpper();
    UpperIsSameWord(c.algorithm, "SHA-256");
    forall text
      ensures DigestHash(h, c.algorithm, text) ==
              if SameWord(c.algorithm, "SHA-256") then h.sha256(text) else h.md5(text)
    {
      AcceptedChallengeIsAnswerable(challenge, h, text);
    }
  }

  lemma Sha256IsUpper()
    ensures forall i :: 0 <= i < |"SHA-256"| ==> !('a' <= "SHA-256"[i] <= 'z')
  {
  }

  lemma HeaderMapHas(
    h: Hashes, a: Account, c: Challenge, ha1: string, verb: string, uri: string, nc: string, cnonce: string)
    ensures var p := HeaderMap(h, a, c, ha1, verb, uri, nc, cnonce);
            && Get(p, "response") == Response(h, c, ha1, verb, uri, nc, cnonce)
            && (c.qop == "auth" ==> Get(p, "qop") == "auth" && Get(p, "nc") == nc && Get(p, "cnonce") == cnonce)
            && (c.qop != "auth" ==> "qop" !in p && "nc" !in p && "cnonce" !in p)
            && Get(p, "username") == a.username && Get(p, "realm") == c.realm
            && Get(p, "nonce") == c.nonce && Get(p, "uri") == uri
            && Get(p, "opaque") == c.opaqueData && Get(p, "algorithm") == c.algorithm
  {
    hide Response, OptionalMap;
    OptionalHas(c, nc, cnonce);
    KeysDiffer();
  }

  lemma OptionalHas(c: Challenge, nc: string, cnonce: string)
    ensures var p := OptionalMap(c, nc, cnonce);
            && (c.qop == "auth" ==>
                "qop" in p && p["qop"] == "auth" && "nc" in p && p["nc"] == nc && "cnonce" in p && p["cnonce"] == cnonce)
            && (c.qop != "auth" ==> "qop" !in p && "nc" !in p && "cnonce" !in p)
            && Get(p, "opaque") == c.opaqueData && Get(p, "algorithm") == c.algorithm
            && "username" !in p && "realm" !in p && "nonce" !in p && "uri" !in p && "response" !in p
  {
    KeysDiffer();
  }

  lemma KeysDiffer()
    ensures "realm"[0] == 'r' && "nonce"[0] == 'n' && "uri"[0] == 'u' && "qop"[0] == 'q' && "response"[1] == 'e'
    ensures "username"[0] == 'u' && "opaque"[0] == 'o' && "cnonce"[0] == 'c'
    ensures "algorithm"[0] == 'a'
  {
  }

  lemma ResponseIs(
    h: Hashes, a: Account, c: Challenge, verb: string, uri: string, nc: string, cnonce: string, hash: string -> string)
    requires forall text :: DigestHash(h, c.algorithm, text) == hash(text)
    ensures var account := hash(a.username + ":" + c.realm + ":" + a.password);
            var request := hash(verb + ":" + uri);
            Response(h, c, Ha1(h, a, c.realm, c.algorithm), verb, uri, nc, cnonce) ==
            if c.qop == "auth" then
              hash(account + ":" + c.nonce + ":" + nc + ":" + cnonce + ":auth:" + request)
            else
              hash(account + ":" + c.nonce + ":" + request)
  {
    hide DigestHash;
    var account := hash(a.username + ":" + c.realm + ":" + a.password);
    var request := hash(verb + ":" + uri);
    CredentialsText(a.username, c.realm, a.password);
    RequestText(verb, uri);
    TailText(account, c.nonce, nc, cnonce, request, c.qop);
  }

  lemma CredentialsText(username: string, realm: string, password: string)
    ensures username + (":" + (realm + (":" + password))) == username + ":" + realm + ":" + password
  {
  }

  lemma RequestText(verb: string, uri: string)
    ensures verb + (":" + uri) == verb + ":" + uri
  {
  }

  lemma TailText(account: string, nonce: string, nc: string, cnonce: string, request: string, qop: string)
    ensures account + ResponseTail(nonce, qop, nc, cnonce, request) ==
            if qop == "auth" then account + ":" + nonce + ":" + nc + ":" + cnonce + ":auth:" + request
            else account + ":" + nonce + ":" + request
  {
    if qop == "auth" {
      assert ":" + "auth" + ":" == ":auth:";
      TailGlue(account, ":", nonce, nc, cnonce, "auth", request);
    }
  }

  lemma TailGlue(account: string, colon: string, nonce: string, nc: string, cnonce: string, qop: string, request: string)
    ensures account + (colon + nonce + colon + nc + colon + cnonce + colon + qop + colon + request) ==
            account + colon + nonce + colon + nc + colon + cnonce + (colon + qop + colon) + request
  {
  }

  /** The response is the one that section asks of the account, with MD5, for what
      the header says of the request, the count and the client nonce. */
  predicate Proves(h: Hashes, a: Account, verb: string, p: Params, nonce: string) {
    var account := h.md5(a.username + ":timestampserver:" + a.password);
    var request := h.md5(verb + ":" + Get(p, "uri"));
    Get(p, "response") ==
    h.md5(if Get(p, "qop") == "auth" then
            account + ":" + nonce + ":" + Get(p, "nc") + ":" + Get(p, "cnonce") + ":auth:" + request
          else
            account + ":" + nonce + ":" + request)
  }

  /** The server's check asks for its own user and for that response. */
  lemma ServerChecksExactly(h: Hashes, server: Account, verb: string, p: Params, nonce: string)
    ensures ResponseMatches(h, server, verb, p, nonce) <==>
            Get(p, "username") == server.username && Proves(h, server, verb, p, nonce)
  {
    hide DigestHash, ResponseTail, Get;
    var account := h.md5(server.username + ":timestampserver:" + server.password);
    var request := h.md5(verb + ":" + Get(p, "uri"));
    Md5Always(h);
    ServerCredentials(server.username, server.password);
    RequestText(verb, Get(p, "uri"));
    TailText(account, nonce, Get(p, "nc"), Get(p, "cnonce"), request, Get(p, "qop"));
  }

  lemma Md5Always(h: Hashes)
    ensures forall text :: DigestHash(h, "MD5", text) == h.md5(text)
  {
    hide DigestHash;
    forall text ensures DigestHash(h, "MD5", text) == h.md5(text) {
      Md5(h, text);
    }
  }

  lemma ServerCredentials(username: string, password: string)
    ensures username + (":" + (REALM + (":" + password))) == username + ":timestampserver:" + password
  {
    assert ":" + REALM + ":" == ":timestampserver:";
    assert username + (":" + (REALM + (":" + password))) == username + (":" + REALM + ":") + password;
  }

  // ----- staleness

  /** Later parameters under other keys leave a value alone. */
  lemma {:induction false} OthersKeep(m: Params, ps: seq<Param>, key: string)
    requires forall i :: 0 <= i < |ps| ==> Lower(ps[i].key) != key
    ensures var r := ToMap(m, Lowered(ps)); Get(r, key) == Get(m, key)
    decreases |ps|
  {
    if ps != [] {
      var q := Lowered(ps);
      assert q[1..] == Lowered(ps[1..]);
      OthersKeep(m[q[0].key := q[0].value], ps[1..], key);
    }
  }

  /** The last parameter under a key decides. */
  lemma {:induction false} LastDecides(m: Params, ps: seq<Param>, i: nat, key: string)
    requires i < |ps| && Lower(ps[i].key) == key
    requires forall j :: i < j < |ps| ==> Lower(ps[j].key) != key
    ensures Get(ToMap(m, Lowered(ps)), key) == ps[i].value
    decreases |ps|
  {
    var q := Lowered(ps);
    assert q[1..] == Lowered(ps[1..]);
    var first := m[q[0].key := q[0].value];
    if i == 0 {
      OthersKeep(first, ps[1..], key);
    } else {
      LastDecides(first, ps[1..], i - 1, key);
    }
  }

  /** A challenge is stale exactly when it comes with a 401 and its last stale
      parameter, quoted or bare, says true; letter case plays no part. */
  lemma StaleExactly(status: int, ps: seq<Param>, i: nat)
    requires AllWritable(ps) && i < |ps| && SameWord(ps[i].key, "stale")
    requires forall j :: i < j < |ps| ==> !SameWord(ps[j].key, "stale")
    ensures IsStale(status, "Digest " + Print(ps)) <==> status == 401 && SameWord(ps[i].value, "true")
  {
    hide Print, Parse, ToMap, Lowered, Token, SameWord, Get;
    ParseWritten(ps);
    StaleKeys(ps);
    LastDecides(map[], ps, i, "stale");
    LettersAreLower();
    LowerIsSameWord(ps[i].value, "true");
  }

  /** A challenge that does not speak of staleness is not stale. */
  lemma UnmarkedIsNotStale(status: int, ps: seq<Param>)
    requires ps != [] && AllWritable(ps) && forall i :: 0 <= i < |ps| ==> !SameWord(ps[i].key, "stale")
    ensures !IsStale(status, "Digest " + Print(ps))
  {
    hide Print, Parse, ToMap, Lowered, Token, SameWord;
    ParseWritten(ps);
    StaleKeys(ps);
    OthersKeep(map[], ps, "stale");
    NothingIsNotTrue();
  }

  lemma NothingIsNotTrue()
    ensures Get(map[], "stale") == "" && Lower("") != "true"
  {
    assert |Lower("")| == 0;
  }

  lemma LettersAreLower()
    ensures forall i :: 0 <= i < |"true"| ==> !('A' <= "true"[i] <= 'Z')
    ensures forall i :: 0 <= i < |"stale"| ==> !('A' <= "stale"[i] <= 'Z')
  {
  }

  lemma StaleKeys(ps: seq<Param>)
    ensures forall i :: 0 <= i < |ps| ==> (Lower(ps[i].key) == "stale" <==> SameWord(ps[i].key, "stale"))
  {
    hide SameWord;
    LettersAreLower();
    forall i | 0 <= i < |ps| ensures Lower(ps[i].key) == "stale" <==> SameWord(ps[i].key, "stale") {
      LowerIsSameWord(ps[i].key, "stale");
    }
  }
}
