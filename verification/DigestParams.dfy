/** Reading the parameters of a digest header, and the general fact that makes
    every header this project prints readable: a list of well-formed parameters
    parses back to itself.
 */
module DigestParams {
  import opened Common
  import opened DigestText

  type Params = map<string, string>

  function Get(p: Params, key: string): string {
    if key in p then p[key] else ""
  }

  /** The value of one parameter: unquoted if it stands in quotes. */
  function ValueOf(text: string): string {
    if |text| >= 2 && text[0] == '"' && text[|text| - 1] == '"' then Unescape(text[1..|text| - 1]) else text
  }

  /** One piece of the header, read into the parameters; a piece without "=" is
      passed over. */
  function AddPiece(p: Params, piece: string): Params {
    var eq := IndexOf(piece, '=');
    if eq < 0 then p
    else p[Lower(Trim(piece[..eq])) := ValueOf(Trim(piece[eq + 1..]))]
  }

  function AddPieces(p: Params, pieces: seq<string>): Params
    decreases |pieces|
  {
    if pieces == [] then p else AddPieces(AddPiece(p, pieces[0]), pieces[1..])
  }

  function Parse(header: string): Result<Params> {
    var h := Trim(header);
    if h == "" then Err("no WWW-Authenticate header")
    else
      var i := IndexOfText(Lower(h), "digest");
      if i < 0 then Err("server does not offer Digest authentication")
      else
        var params := AddPieces(map[], Split(Trim(h[i + 6..])));
        if params == map[] then Err("digest challenge has no parameters") else Ok(params)
  }

  /** parseDigestChallenge, also exported as ParseDigestParams. */
  method ParseDigestChallenge(header: string) returns (r: Result<Params>)
    ensures r == Parse(header)
  {
    hide Trim, Lower, IndexOf, IndexOfText, Split, Unescape;
    var h := Trim(header);
    if h == "" {
      return Err("no WWW-Authenticate header");
    }
    var i := IndexOfText(Lower(h), "digest");
    if i < 0 {
      return Err("server does not offer Digest authentication");
    }
    h := Trim(h[i + 6..]);
    var params: Params := map[];
    var pieces := SplitDigestParams(h);
    for k := 0 to |pieces|
      invariant AddPieces(params, pieces[k..]) == AddPieces(map[], pieces)
    {
      assert pieces[k..][0] == pieces[k] && pieces[k..][1..] == pieces[k + 1..];
      var kv := pieces[k];
      var eq := IndexOf(kv, '=');
      if eq < 0 {
        continue;
      }
      var key := Lower(Trim(kv[..eq]));
      var val := Trim(kv[eq + 1..]);
      if |val| >= 2 && val[0] == '"' && val[|val| - 1] == '"' {
        val := Unescape(val[1..|val| - 1]);
      }
      params := params[key := val];
    }
    if params == map[] {
      return Err("digest challenge has no parameters");
    }
    return Ok(params);
  }

  // ----- printed parameters

  /** A parameter as printed: value in quotes, or bare. */
  datatype Param = Quoted(key: string, value: string) | Bare(key: string, value: string)

  function TextOf(p: Param): string {
    p.key + "=" + (if p.Quoted? then Quote(p.value) else p.value)
  }

  /** The parameters separated by a comma and a space. */
  function Print(ps: seq<Param>): string {
    if ps == [] then ""
    else if |ps| == 1 then TextOf(ps[0])
    else TextOf(ps[0]) + ", " + Print(ps[1..])
  }

  /** A character that stands for itself outside quotes. */
  predicate TokenChar(c: char) {
    !IsSpace(c) && c != ',' && c != '=' && c != '"' && c != '\\'
  }

  predicate Token(s: string) {
    s != "" && forall i :: 0 <= i < |s| ==> TokenChar(s[i])
  }

  /** Keys are tokens; a bare value must be a token, a quoted one may be any text
      at all. */
  predicate Writable(p: Param) {
    Token(p.key) && (p.Bare? ==> Token(p.value))
  }

  predicate AllWritable(ps: seq<Param>) {
    forall i :: 0 <= i < |ps| ==> Writable(ps[i])
  }

  /** As this program prints them: with keys in lower case. */
  predicate Printable(p: Param) {
    Writable(p) && Lower(p.key) == p.key
  }

  predicate AllPrintable(ps: seq<Param>) {
    forall i :: 0 <= i < |ps| ==> Printable(ps[i])
  }

  function ToMap(p: Params, ps: seq<Param>): Params
    decreases |ps|
  {
    if ps == [] then p else ToMap(p[ps[0].key := ps[0].value], ps[1..])
  }

  /** The parameters with their keys in lower case. */
  function Lowered(ps: seq<Param>): seq<Param> {
    if ps == [] then []
    else [if ps[0].Quoted? then Quoted(Lower(ps[0].key), ps[0].value) else Bare(Lower(ps[0].key), ps[0].value)] + Lowered(ps[1..])
  }

  // ----- walking over what is printed

  lemma {:induction false} TokenWalk(s: string)
    requires forall i :: 0 <= i < |s| ==> TokenChar(s[i]) || IsSpace(s[i]) || s[i] == '='
    ensures Uncut(OUTSIDE, s) && Walk(OUTSIDE, s) == OUTSIDE
    decreases |s|
  {
    if s != "" {
      assert Step(OUTSIDE, s[0]) == OUTSIDE;
      TokenWalk(s[1..]);
    }
  }

  lemma {:induction false} EscapeWalk(s: string)
    ensures Uncut(Quoting(true, false), Escape(s)) && Walk(Quoting(true, false), Escape(s)) == Quoting(true, false)
    decreases |s|
  {
    var inside := Quoting(true, false);
    if s != "" {
      EscapeWalk(s[1..]);
      if Special(s[0]) {
        assert Escape(s) == ['\\'] + ([s[0]] + Escape(s[1..]));
        assert Escape(s)[1..] == [s[0]] + Escape(s[1..]);
        assert ([s[0]] + Escape(s[1..]))[1..] == Escape(s[1..]);
        assert Step(Step(inside, '\\'), s[0]) == inside;
      } else {
        assert Escape(s)[1..] == Escape(s[1..]);
      }
    }
  }

  /** A quoted value opens and closes its own quotes, whatever it contains. */
  lemma QuoteWalk(v: string)
    ensures Uncut(OUTSIDE, Quote(v)) && Walk(OUTSIDE, Quote(v)) == OUTSIDE
  {
    EscapeWalk(v);
    var inside := Quoting(true, false);
    WalkConcat(OUTSIDE, "\"", Escape(v) + "\"");
    WalkConcat(inside, Escape(v), "\"");
    assert Quote(v) == "\"" + (Escape(v) + "\"");
    assert Walk(inside, "\"") == OUTSIDE && Uncut(inside, "\"");
    assert Walk(OUTSIDE, "\"") == inside && Uncut(OUTSIDE, "\"");
  }

  lemma ParamWalk(p: Param)
    requires Writable(p)
    ensures Uncut(OUTSIDE, TextOf(p)) && Walk(OUTSIDE, TextOf(p)) == OUTSIDE
  {
    TokenWalk(p.key + "=");
    WalkConcat(OUTSIDE, p.key + "=", if p.Quoted? then Quote(p.value) else p.value);
    if p.Quoted? {
      QuoteWalk(p.value);
    } else {
      TokenWalk(p.value);
    }
  }

  // ----- reading one parameter back

  lemma TrimKeeps(s: string)
    requires s != "" && !IsSpace(s[0]) && !IsSpace(s[|s| - 1])
    ensures Trim(s) == s
  {
  }

  lemma TrimDropsSpace(s: string)
    requires s != "" && !IsSpace(s[0]) && !IsSpace(s[|s| - 1])
    ensures Trim(" " + s) == s
  {
    assert (" " + s)[1..] == s;
    TrimKeeps(s);
  }

  lemma {:induction false} IndexOfFirst(a: string, c: char, b: string)
    requires c !in a
    ensures IndexOf(a + ([c] + b), c) == |a|
    decreases |a|
  {
    if a == "" {
      assert a + ([c] + b) == [c] + b;
    } else {
      assert (a + ([c] + b))[1..] == a[1..] + ([c] + b);
      IndexOfFirst(a[1..], c, b);
    }
  }

  lemma ValueOfQuote(v: string)
    ensures ValueOf(Quote(v)) == v
  {
    UnescapeEscape(v);
    assert Quote(v)[1..|Quote(v)| - 1] == Escape(v);
  }

  lemma ParamText(p: Param)
    requires Writable(p)
    ensures var text := if p.Quoted? then Quote(p.value) else p.value;
            text != "" && !IsSpace(text[0]) && !IsSpace(text[|text| - 1]) && ValueOf(text) == p.value
  {
    if p.Quoted? {
      ValueOfQuote(p.value);
    }
  }

  /** A piece, with or without the space before it, reads as its key and value. */
  lemma PieceReads(m: Params, p: Param, space: string)
    requires Writable(p) && (space == "" || space == " ")
    ensures AddPiece(m, space + TextOf(p)) == m[Lower(p.key) := p.value]
  {
    hide *;
    var text := if p.Quoted? then Quote(p.value) else p.value;
    ParamText(p);
    TrimKeeps(text);
    KeyText(p, space);
    PieceText(p, space);
    PieceAt(m, space + p.key, text);
  }

  lemma PieceAt(m: Params, before: string, text: string)
    requires '=' !in before
    ensures AddPiece(m, before + (['='] + text)) == m[Lower(Trim(before)) := ValueOf(Trim(text))]
  {
    hide ValueOf, Trim, Lower, IndexOf;
    PieceSplits(before, text);
  }

  lemma PieceText(p: Param, space: string)
    ensures space + TextOf(p) == (space + p.key) + (['='] + (if p.Quoted? then Quote(p.value) else p.value))
  {
    hide Quote;
  }

  lemma KeyText(p: Param, space: string)
    requires Writable(p) && (space == "" || space == " ")
    ensures '=' !in space + p.key
    ensures Lower(Trim(space + p.key)) == Lower(p.key)
  {
    KeyAlone(p);
    if space == "" {
      assert space + p.key == p.key;
    } else {
      hide Trim, Lower, TokenChar;
      TrimDropsSpace(p.key);
      assert " "[0] == ' ';
    }
  }

  lemma KeyAlone(p: Param)
    requires Writable(p)
    ensures p.key != "" && !IsSpace(p.key[0]) && !IsSpace(p.key[|p.key| - 1]) && '=' !in p.key
    ensures Trim(p.key) == p.key
  {
    hide Trim;
    TrimKeeps(p.key);
  }

  lemma PieceSplits(before: string, text: string)
    requires '=' !in before
    ensures var piece := before + (['='] + text);
            var eq := IndexOf(piece, '=');
            eq >= 0 && piece[..eq] == before && piece[eq + 1..] == text
  {
    IndexOfFirst(before, '=', text);
  }

  // ----- reading the list back

  /** Reading the printed list, piece by piece, is reading its parameters. */
  lemma {:induction false} PiecesRead(m: Params, ps: seq<Param>, space: string)
    requires ps != [] && AllWritable(ps) && (space == "" || space == " ")
    ensures AddPieces(m, Pieces(OUTSIDE, space + Print(ps), "")) == ToMap(m, Lowered(ps))
    decreases |ps|
  {
    hide AddPiece, TextOf, Writable, Uncut, Walk, Pieces;
    var p := ps[0];
    var head := space + TextOf(p);
    HeadWalk(p, space);
    PieceReads(m, p, space);
    if |ps| == 1 {
      LastPiece(head);
      assert space + Print(ps) == head;
      ReadOne(m, head);
      assert ps[1..] == [];
    } else {
      assert space + Print(ps) == head + ("," + (" " + Print(ps[1..])));
      CutPiece(head, " " + Print(ps[1..]));
      PiecesRead(m[Lower(p.key) := p.value], ps[1..], " ");
      ReadFirst(m, head, Pieces(OUTSIDE, " " + Print(ps[1..]), ""));
    }
  }

  lemma HeadWalk(p: Param, space: string)
    requires Writable(p) && (space == "" || space == " ")
    ensures Uncut(OUTSIDE, space + TextOf(p)) && Walk(OUTSIDE, space + TextOf(p)) == OUTSIDE
    ensures !Blank(space + TextOf(p))
  {
    ParamWalk(p);
    TokenWalk(space);
    WalkConcat(OUTSIDE, space, TextOf(p));
    NotBlank(p, space);
  }

  lemma ReadOne(m: Params, piece: string)
    ensures AddPieces(m, [piece]) == AddPiece(m, piece)
  {
  }

  lemma ReadFirst(m: Params, piece: string, rest: seq<string>)
    ensures AddPieces(m, [piece] + rest) == AddPieces(AddPiece(m, piece), rest)
  {
    assert ([piece] + rest)[1..] == rest;
  }

  lemma NotBlank(p: Param, space: string)
    requires Writable(p)
    ensures !Blank(space + TextOf(p))
  {
    assert (space + TextOf(p))[|space|] == p.key[0];
  }

  lemma LastPiece(head: string)
    requires Uncut(OUTSIDE, head) && !Blank(head)
    ensures Pieces(OUTSIDE, head, "") == [head]
  {
    PiecesSkip(OUTSIDE, head, "", "");
    assert head + "" == head && "" + head == head;
  }

  lemma CutPiece(head: string, rest: string)
    requires Uncut(OUTSIDE, head) && Walk(OUTSIDE, head) == OUTSIDE
    ensures Pieces(OUTSIDE, head + ("," + rest), "") == [head] + Pieces(OUTSIDE, rest, "")
  {
    PiecesSkip(OUTSIDE, head, "," + rest, "");
    assert "" + head == head;
    assert ("," + rest)[1..] == rest;
  }

  lemma {:induction false} PrintEnds(ps: seq<Param>)
    requires ps != [] && AllWritable(ps)
    ensures var s := Print(ps); s != "" && !IsSpace(s[0]) && !IsSpace(s[|s| - 1])
    decreases |ps|
  {
    ParamText(ps[0]);
    if |ps| > 1 {
      PrintEnds(ps[1..]);
    }
  }

  lemma {:induction false} ToMapKeeps(m: Params, ps: seq<Param>, key: string)
    requires key in m
    ensures key in ToMap(m, ps)
    decreases |ps|
  {
    if ps != [] {
      ToMapKeeps(m[ps[0].key := ps[0].value], ps[1..], key);
    }
  }

  lemma IndexOfScheme(rest: string)
    ensures IndexOfText(Lower("Digest" + rest), "digest") == 0
  {
    assert Lower("Digest" + rest)[..6] == "digest";
  }

  /** The scheme's name in front of it, text with no space around it is read
      piece by piece. */
  lemma ParseAfterScheme(text: string)
    requires text != "" && !IsSpace(text[0]) && !IsSpace(text[|text| - 1])
    ensures var params := AddPieces(map[], Split(text));
            Parse("Digest " + text) == if params == map[] then Err("digest challenge has no parameters") else Ok(params)
  {
    hide AddPieces, Split, Trim, Lower, IndexOfText;
    var header := "Digest " + text;
    TrimKeeps(header);
    IndexOfScheme(" " + text);
    assert header == "Digest" + (" " + text);
    assert header[6..] == " " + text;
    TrimDropsSpace(text);
  }

  lemma {:induction false} LoweredKeeps(ps: seq<Param>)
    requires AllPrintable(ps)
    ensures Lowered(ps) == ps && AllWritable(ps)
  {
    hide Token;
    if ps != [] {
      LoweredKeeps(ps[1..]);
      assert ps == [ps[0]] + ps[1..];
    }
  }

  /** Parameters printed by anyone, with keys in any case, parse to exactly those
      parameters under their keys in lower case. */
  lemma ParseWritten(ps: seq<Param>)
    requires ps != [] && AllWritable(ps)
    ensures Parse("Digest " + Print(ps)) == Ok(ToMap(map[], Lowered(ps)))
  {
    hide AllWritable, AddPieces, Pieces, Print, Parse;
    PrintEnds(ps);
    ParseAfterScheme(Print(ps));
    PiecesRead(map[], ps, "");
    assert "" + Print(ps) == Print(ps);
    NotEmptied(ps);
  }

  lemma NotEmptied(ps: seq<Param>)
    requires ps != []
    ensures ToMap(map[], Lowered(ps)) != map[]
  {
    var q := Lowered(ps);
    ToMapKeeps(map[q[0].key := q[0].value], q[1..], q[0].key);
  }

  /** Whatever the values, a header printed from well-formed parameters parses
      back to exactly those parameters. */
  lemma ParsePrinted(ps: seq<Param>)
    requires ps != [] && AllPrintable(ps)
    ensures Parse("Digest " + Print(ps)) == Ok(ToMap(map[], ps))
  {
    hide Parse, Print, ToMap;
    LoweredKeeps(ps);
    ParseWritten(ps);
  }

  /** The scheme may be written in any case, and other schemes may be offered
      before it, as long as none of their text spells it. */
  lemma ParseAmongSchemes(front: string, scheme: string, ps: seq<Param>)
    requires ps != [] && AllWritable(ps) && Lower(scheme) == "digest"
    requires front != "" ==> !IsSpace(front[0])
    requires forall i :: 0 <= i < |front| ==> !OccursAt(Lower(front + scheme), i, "digest")
    ensures Parse(front + (scheme + (" " + Print(ps)))) == Ok(ToMap(map[], Lowered(ps)))
  {
    hide AllWritable, AddPieces, Pieces, Print, Lower, ToMap, Lowered;
    assert |scheme| == |Lower(scheme)| == 6;
    PrintEnds(ps);
    SchemeStarts(scheme);
    SchemeFound(front, scheme, " " + Print(ps));
    ParseFrom(front, scheme, Print(ps));
    PiecesRead(map[], ps, "");
    assert "" + Print(ps) == Print(ps);
    NotEmptied(ps);
  }

  lemma SchemeStarts(scheme: string)
    requires Lower(scheme) == "digest"
    ensures scheme != "" && !IsSpace(scheme[0])
  {
    assert Lower(scheme)[0] == LowerChar(scheme[0]);
  }

  lemma SchemeFound(front: string, scheme: string, rest: string)
    requires Lower(scheme) == "digest" && |scheme| == 6
    requires forall i :: 0 <= i < |front| ==> !OccursAt(Lower(front + scheme), i, "digest")
    ensures IndexOfText(Lower(front + (scheme + rest)), "digest") == |front|
  {
    var s, n := Lower(front + (scheme + rest)), |front|;
    assert s[n..n + 6] == Lower(scheme);
    assert OccursAt(s, n, "digest");
    forall k | 0 <= k < n ensures !OccursAt(s, k, "digest") {
      assert s[k..k + 6] == Lower(front + scheme)[k..k + 6];
      assert !OccursAt(Lower(front + scheme), k, "digest");
    }
    IndexOfTextExact(s, "digest");
  }

  lemma ParseFrom(front: string, scheme: string, text: string)
    requires |scheme| == 6 && !IsSpace(scheme[0]) && (front != "" ==> !IsSpace(front[0]))
    requires text != "" && !IsSpace(text[0]) && !IsSpace(text[|text| - 1])
    requires IndexOfText(Lower(front + (scheme + (" " + text))), "digest") == |front|
    ensures var params := AddPieces(map[], Split(text));
            Parse(front + (scheme + (" " + text))) ==
            if params == map[] then Err("digest challenge has no parameters") else Ok(params)
  {
    hide AddPieces, Split, Trim, Lower, IndexOfText;
    var header := front + (scheme + (" " + text));
    TrimKeeps(header);
    assert header[|front| + 6..] == " " + text;
    TrimDropsSpace(text);
  }

  /** A header in which the scheme is nowhere spelled is refused. */
  lemma ParseNeedsScheme(header: string)
    requires forall i :: !OccursAt(Lower(Trim(header)), i, "digest")
    ensures Parse(header).Err?
  {
    hide Trim, Lower, Split, AddPieces, OccursAt;
    IndexOfTextExact(Lower(Trim(header)), "digest");
  }
}
