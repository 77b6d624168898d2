/** One exchange of digest authentication as text: the challenge a server
    writes, the Authorization header a client answers it with, and the server's
    check of that header (sections 3.3 and 3.4 of RFC 7616).
 */
module DigestHeader {
  import opened Common
  import opened DigestText
  import opened DigestParams

  /** The hash algorithms, about which nothing is known. */
  datatype Hashes = Hashes(md5: string -> string, sha256: string -> string)

  datatype Challenge = Challenge(realm: string, nonce: string, opaqueData: string, qop: string, algorithm: string)

  datatype Account = Account(username: string, password: string)

  const REALM := "timestampserver"

  // ----- hashing

  function UpperChar(c: char): char {
    if 'a' <= c <= 'z' then c - 'a' + 'A' else c
  }

  function Upper(s: string): (r: string)
    ensures |r| == |s|
    ensures forall i :: 0 <= i < |s| ==> r[i] == UpperChar(s[i])
  {
    seq(|s|, i requires 0 <= i < |s| => UpperChar(s[i]))
  }

  predicate HasSuffix(s: string, suffix: string) {
    |s| >= |suffix| && s[|s| - |suffix|..] == suffix
  }

  function TrimSuffix(s: string, suffix: string): string {
    if HasSuffix(s, suffix) then s[..|s| - |suffix|] else s
  }

  /** The algorithm the challenge names; MD5 when it names none. */
  function DigestHash(h: Hashes, algorithm: string, s: string): string {
    if Upper(TrimSuffix(algorithm, "-sess")) == "SHA-256" then h.sha256(s) else h.md5(s)
  }

  function Ha1(h: Hashes, a: Account, realm: string, algorithm: string): string {
    DigestHash(h, algorithm, a.username + (":" + (realm + (":" + a.password))))
  }

  function Ha2(h: Hashes, algorithm: string, verb: string, uri: string): string {
    DigestHash(h, algorithm, verb + (":" + uri))
  }

  /** What is hashed for the response, after the credential hash. */
  function ResponseTail(nonce: string, qop: string, nc: string, cnonce: string, ha2: string): string {
    if qop == "auth" then
      ":" + nonce + ":" + nc + ":" + cnonce + ":" + "auth" + ":" + ha2
    else
      ":" + nonce + ":" + ha2
  }

  // ----- nonce counts

  function HexDigit(n: nat): char
    requires n < 16
  {
    "0123456789abcdef"[n]
  }

  /** n in hexadecimal, with at least width digits. */
  function HexDigits(n: nat, width: nat): (s: string)
    ensures |s| >= width
    ensures forall i :: 0 <= i < |s| ==> TokenChar(s[i])
    decreases n + width
  {
    if n == 0 && width == 0 then ""
    else HexDigits(n / 16, if width > 0 then width - 1 else 0) + [HexDigit(n % 16)]
  }

  /** The format %08x. */
  function NonceCount(n: nat): (s: string)
    ensures Token(s)
  {
    HexDigits(n, 8)
  }

  lemma {:induction false} HexDigitsInjective(m: nat, n: nat, width: nat)
    requires HexDigits(m, width) == HexDigits(n, width)
    ensures m == n
    decreases m + n + width
  {
    var w := if width > 0 then width - 1 else 0;
    if !(m == 0 && width == 0) && !(n == 0 && width == 0) {
      LastDigit(HexDigits(m / 16, w), HexDigits(n / 16, w), HexDigit(m % 16), HexDigit(n % 16));
      HexDigitsInjective(m / 16, n / 16, w);
      DifferentDigits(m % 16, n % 16);
    }
  }

  lemma LastDigit(s: string, t: string, c: char, d: char)
    requires s + [c] == t + [d]
    ensures s == t && c == d
  {
    assert |s| == |t|;
    assert (s + [c])[..|s|] == s && (t + [d])[..|t|] == t;
    assert (s + [c])[|s|] == c && (t + [d])[|t|] == d;
  }

  lemma DifferentDigits(m: nat, n: nat)
    requires m < 16 && n < 16 && HexDigit(m) == HexDigit(n)
    ensures m == n
  {
  }

  /** Different counts print differently. */
  lemma NonceCountInjective(m: nat, n: nat)
    ensures NonceCount(m) == NonceCount(n) <==> m == n
  {
    if NonceCount(m) == NonceCount(n) {
      HexDigitsInjective(m, n, 8);
    }
  }

  predicate HexChar(c: char) {
    '0' <= c <= '9' || 'a' <= c <= 'f'
  }

  function DigitValue(c: char): nat {
    if '0' <= c <= '9' then (c - '0') as int else if 'a' <= c <= 'f' then (c - 'a') as int + 10 else 0
  }

  /** The number a text of lower-case hexadecimal digits stands for. */
  function HexValue(s: string): nat {
    if s == "" then 0 else HexValue(s[..|s| - 1]) * 16 + DigitValue(s[|s| - 1])
  }

  lemma DigitExact(n: nat)
    requires n < 16
    ensures HexChar(HexDigit(n)) && DigitValue(HexDigit(n)) == n && (HexDigit(n) == '0' ==> n == 0)
  {
  }

  lemma OneDigitMore(front: string, last: char)
    ensures HexValue(front + [last]) == HexValue(front) * 16 + DigitValue(last)
  {
    assert (front + [last])[..|front|] == front;
  }

  lemma HexDigitsStep(n: nat, width: nat)
    requires n != 0 || width != 0
    ensures HexDigits(n, width) == HexDigits(n / 16, if width > 0 then width - 1 else 0) + [HexDigit(n % 16)]
  {
  }

  lemma {:induction false} HexDigitsExact(n: nat, width: nat)
    ensures HexValue(HexDigits(n, width)) == n
    ensures forall i :: 0 <= i < |HexDigits(n, width)| ==> HexChar(HexDigits(n, width)[i])
    decreases n + width
  {
    if n != 0 || width != 0 {
      var w := if width > 0 then width - 1 else 0;
      HexDigitsExact(n / 16, w);
      DigitExact(n % 16);
      HexDigitsStep(n, width);
      OneDigitMore(HexDigits(n / 16, w), HexDigit(n % 16));
      hide HexDigits, HexValue, HexDigit, DigitValue, HexChar;
    }
  }

  lemma {:induction false} NoZeroInFront(n: nat, width: nat)
    ensures |HexDigits(n, width)| == width || HexDigits(n, width)[0] != '0'
    decreases n + width
  {
    if n != 0 || width != 0 {
      var w := if width > 0 then width - 1 else 0;
      NoZeroInFront(n / 16, w);
      DigitExact(n % 16);
      HexDigitsStep(n, width);
      hide HexDigits, HexDigit;
    }
  }

  /** A count is printed as itself, in at least eight lower-case hexadecimal
      digits, with zeros in front only to make up the eight. */
  lemma NonceCountExact(n: nat)
    ensures var s := NonceCount(n);
            && HexValue(s) == n && (forall i :: 0 <= i < |s| ==> HexChar(s[i]))
            && |s| >= 8 && (|s| > 8 ==> s[0] != '0')
  {
    HexDigitsExact(n, 8);
    NoZeroInFront(n, 8);
  }

  lemma FirstNonceCount()
    ensures NonceCount(1) == "00000001"
  {
    assert HexDigits(0, 0) == "";
    assert HexDigits(0, 3) == "000";
    assert HexDigits(0, 5) == "00000";
    assert HexDigits(0, 7) == "0000000";
  }

  // ----- the Authorization header

  function Response(h: Hashes, c: Challenge, ha1: string, verb: string, uri: string, nc: string, cnonce: string): string {
    DigestHash(h, c.algorithm, ha1 + ResponseTail(c.nonce, c.qop, nc, cnonce, Ha2(h, c.algorithm, verb, uri)))
  }

  /** digestHeader. */
  function Header(
    h: Hashes, a: Account, c: Challenge, ha1: string, verb: string, uri: string, nc: string, cnonce: string): string
  {
    "Digest username=" + Quote(a.username)
    + (", realm=" + Quote(c.realm))
    + (", nonce=" + Quote(c.nonce))
    + (", uri=" + Quote(uri))
    + (", response=" + Quote(Response(h, c, ha1, verb, uri, nc, cnonce)))
    + (if c.algorithm != "" then ", algorithm=" + c.algorithm else "")
    + (if c.opaqueData != "" then ", opaque=" + Quote(c.opaqueData) else "")
    + (if c.qop == "auth" then ", qop=auth, nc=" + nc + ", cnonce=" + Quote(cnonce) else "")
  }

  /** The parameters the header carries. */
  function HeaderParams(
    h: Hashes, a: Account, c: Challenge, ha1: string, verb: string, uri: string, nc: string, cnonce: string): seq<Param>
  {
    [Quoted("username", a.username), Quoted("realm", c.realm), Quoted("nonce", c.nonce), Quoted("uri", uri),
     Quoted("response", Response(h, c, ha1, verb, uri, nc, cnonce))]
    + OptionalParams(c, nc, cnonce)
  }

  function OptionalParams(c: Challenge, nc: string, cnonce: string): seq<Param> {
    (if c.algorithm != "" then [Bare("algorithm", c.algorithm)] else [])
    + (if c.opaqueData != "" then [Quoted("opaque", c.opaqueData)] else [])
    + (if c.qop == "auth" then [Bare("qop", "auth"), Bare("nc", nc), Quoted("cnonce", cnonce)] else [])
  }

  /** Each parameter after a comma and a space. */
  function Rest(ps: seq<Param>): string {
    if ps == [] then "" else ", " + TextOf(ps[0]) + Rest(ps[1..])
  }

  lemma {:induction false} PrintIsRest(p: Param, ps: seq<Param>)
    ensures Print([p] + ps) == TextOf(p) + Rest(ps)
    decreases |ps|
  {
    assert ([p] + ps)[1..] == ps;
    if ps == [] {
      assert TextOf(p) + "" == TextOf(p);
    } else {
      PrintIsRest(ps[0], ps[1..]);
      assert ps == [ps[0]] + ps[1..];
      assert TextOf(p) + ", " + (TextOf(ps[0]) + Rest(ps[1..])) == TextOf(p) + (", " + TextOf(ps[0]) + Rest(ps[1..]));
    }
  }

  lemma {:induction false} RestConcat(ps: seq<Param>, qs: seq<Param>)
    ensures Rest(ps + qs) == Rest(ps) + Rest(qs)
    decreases |ps|
  {
    if ps == [] {
      assert ps + qs == qs;
    } else {
      assert (ps + qs)[1..] == ps[1..] + qs;
      RestConcat(ps[1..], qs);
      assert ", " + TextOf(ps[0]) + (Rest(ps[1..]) + Rest(qs)) == (", " + TextOf(ps[0]) + Rest(ps[1..])) + Rest(qs);
    }
  }

  lemma RestOne(p: Param)
    ensures Rest([p]) == ", " + TextOf(p)
  {
    assert [p][1..] == [];
  }

  lemma QuotedText(key: string, value: string)
    ensures TextOf(Quoted(key, value)) == key + "=" + Quote(value)
    ensures TextOf(Bare(key, value)) == key + "=" + value
  {
  }

  lemma Glue(key: string, prefix: string, text: string)
    requires ", " + key + "=" == prefix
    ensures ", " + (key + "=" + text) == prefix + text
  {
  }

  lemma RestQuoted(key: string, prefix: string, value: string)
    requires ", " + key + "=" == prefix
    ensures Rest([Quoted(key, value)]) == prefix + Quote(value)
    ensures Rest([Bare(key, value)]) == prefix + value
  {
    hide Quote;
    RestOne(Quoted(key, value));
    RestOne(Bare(key, value));
    Glue(key, prefix, Quote(value));
    Glue(key, prefix, value);
  }

  lemma FixedText(realm: string, nonce: string, uri: string, response: string)
    ensures Rest([Quoted("realm", realm), Quoted("nonce", nonce), Quoted("uri", uri), Quoted("response", response)]) ==
            (", realm=" + Quote(realm)) + (", nonce=" + Quote(nonce)) + (", uri=" + Quote(uri))
            + (", response=" + Quote(response))
  {
    hide Quote, TextOf, Rest;
    var r, n, u, x := Quoted("realm", realm), Quoted("nonce", nonce), Quoted("uri", uri), Quoted("response", response);
    RestQuoted("realm", ", realm=", realm);
    RestQuoted("nonce", ", nonce=", nonce);
    RestQuoted("uri", ", uri=", uri);
    RestQuoted("response", ", response=", response);
    RestConcat([r], [n]);
    RestConcat([r] + [n], [u]);
    RestConcat([r] + [n] + [u], [x]);
    assert [r, n, u, x] == [r] + [n] + [u] + [x];
  }

  lemma QopText(nc: string, cnonce: string)
    ensures Rest([Bare("qop", "auth"), Bare("nc", nc), Quoted("cnonce", cnonce)]) ==
            ", qop=auth, nc=" + nc + ", cnonce=" + Quote(cnonce)
  {
    hide Quote, TextOf, Rest;
    var q, n, x := Bare("qop", "auth"), Bare("nc", nc), Quoted("cnonce", cnonce);
    RestQuoted("qop", ", qop=", "auth");
    RestQuoted("nc", ", nc=", nc);
    RestQuoted("cnonce", ", cnonce=", cnonce);
    RestConcat([q], [n]);
    RestConcat([q] + [n], [x]);
    assert [q, n, x] == [q] + [n] + [x];
    assert ", qop=" + "auth" + (", nc=" + nc) == ", qop=auth, nc=" + nc;
  }

  lemma OptionalText(c: Challenge, nc: string, cnonce: string)
    ensures Rest(OptionalParams(c, nc, cnonce)) ==
            (if c.algorithm != "" then ", algorithm=" + c.algorithm else "")
            + (if c.opaqueData != "" then ", opaque=" + Quote(c.opaqueData) else "")
            + (if c.qop == "auth" then ", qop=auth, nc=" + nc + ", cnonce=" + Quote(cnonce) else "")
  {
    hide Quote, TextOf, Rest;
    var x := if c.algorithm != "" then [Bare("algorithm", c.algorithm)] else [];
    var y := if c.opaqueData != "" then [Quoted("opaque", c.opaqueData)] else [];
    var z := if c.qop == "auth" then [Bare("qop", "auth"), Bare("nc", nc), Quoted("cnonce", cnonce)] else [];
    RestQuoted("algorithm", ", algorithm=", c.algorithm);
    RestQuoted("opaque", ", opaque=", c.opaqueData);
    QopText(nc, cnonce);
    RestConcat(x, y);
    RestConcat(x + y, z);
    RestNothing();
  }

  lemma RestNothing()
    ensures Rest([]) == ""
  {
  }

  /** The header is its parameters, printed. */
  lemma HeaderIsPrinted(
    h: Hashes, a: Account, c: Challenge, ha1: string, verb: string, uri: string, nc: string, cnonce: string)
    ensures Header(h, a, c, ha1, verb, uri, nc, cnonce) ==
            "Digest " + Print(HeaderParams(h, a, c, ha1, verb, uri, nc, cnonce))
  {
    hide Quote, TextOf, Rest, Print, Response, OptionalParams;
    var response := Response(h, c, ha1, verb, uri, nc, cnonce);
    var optional := OptionalParams(c, nc, cnonce);
    ParamsInOrder(a.username, c.realm, c.nonce, uri, response, optional);
    FixedText(c.realm, c.nonce, uri, response);
    OptionalText(c, nc, cnonce);
    UserText(a.username);
    HeaderGlue(
      "Digest ", TextOf(Quoted("username", a.username)),
      ", realm=" + Quote(c.realm), ", nonce=" + Quote(c.nonce), ", uri=" + Quote(uri), ", response=" + Quote(response),
      if c.algorithm != "" then ", algorithm=" + c.algorithm else "",
      if c.opaqueData != "" then ", opaque=" + Quote(c.opaqueData) else "",
      if c.qop == "auth" then ", qop=auth, nc=" + nc + ", cnonce=" + Quote(cnonce) else "");
  }

  lemma ParamsInOrder(username: string, realm: string, nonce: string, uri: string, response: string, optional: seq<Param>)
    ensures var fixed := [Quoted("realm", realm), Quoted("nonce", nonce), Quoted("uri", uri), Quoted("response", response)];
            Print([Quoted("username", username), Quoted("realm", realm), Quoted("nonce", nonce), Quoted("uri", uri),
                   Quoted("response", response)] + optional) ==
            TextOf(Quoted("username", username)) + (Rest(fixed) + Rest(optional))
  {
    hide TextOf, Rest, Print;
    var user := Quoted("username", username);
    var fixed := [Quoted("realm", realm), Quoted("nonce", nonce), Quoted("uri", uri), Quoted("response", response)];
    assert [user] + (fixed + optional) == [user, fixed[0], fixed[1], fixed[2], fixed[3]] + optional;
    PrintIsRest(user, fixed + optional);
    RestConcat(fixed, optional);
  }

  lemma UserText(username: string)
    ensures "Digest " + TextOf(Quoted("username", username)) == "Digest username=" + Quote(username)
  {
    hide Quote;
    QuotedText("username", username);
    assert "Digest " + ("username" + "=" + Quote(username)) == "Digest username=" + Quote(username);
  }

  lemma HeaderGlue(
    scheme: string,
    user: string, realm: string, nonce: string, uri: string, response: string, x: string, y: string, z: string)
    ensures scheme + (user + ((realm + nonce + uri + response) + (x + y + z))) ==
            scheme + user + realm + nonce + uri + response + x + y + z
  {
  }
}
