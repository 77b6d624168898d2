/** The text of digest headers: quoting, splitting on commas, and reading
    parameters back. Quoted strings are those of section 3.2.6 of RFC 7230.
 */
module DigestText {
  import opened Common

  datatype Result<T> = Ok(value: T) | Err(message: string)

  // ----- trimming and searching

  function TrimLeft(s: string): string {
    if s != "" && IsSpace(s[0]) then TrimLeft(s[1..]) else s
  }

  function TrimRight(s: string): string {
    if s != "" && IsSpace(s[|s| - 1]) then TrimRight(s[..|s| - 1]) else s
  }

  function Trim(s: string): string {
    TrimRight(TrimLeft(s))
  }

  function LowerChar(c: char): char {
    if 'A' <= c <= 'Z' then c - 'A' + 'a' else c
  }

  function Lower(s: string): (r: string)
    ensures |r| == |s|
    ensures forall i :: 0 <= i < |s| ==> r[i] == LowerChar(s[i])
  {
    seq(|s|, i requires 0 <= i < |s| => LowerChar(s[i]))
  }

  /** The first index of c in s, or -1. */
  function IndexOf(s: string, c: char): (i: int)
    ensures -1 <= i < |s|
    ensures i >= 0 ==> s[i] == c && c !in s[..i]
    ensures i < 0 <==> c !in s
  {
    if s == "" then -1
    else if s[0] == c then 0
    else
      var i := IndexOf(s[1..], c);
      if i < 0 then -1 else i + 1
  }

  /** The first index of t in s, or -1. */
  function IndexOfText(s: string, t: string): (i: int)
    ensures i == -1 || (0 <= i <= |s| - |t| && s[i..i + |t|] == t)
  {
    if |s| < |t| then -1
    else if s[..|t|] == t then 0
    else if s == "" then -1
    else
      var i := IndexOfText(s[1..], t);
      if i < 0 then -1 else i + 1
  }

  /** t stands in s from position k on. */
  predicate OccursAt(s: string, k: int, t: string) {
    0 <= k <= k + |t| <= |s| && s[k..k + |t|] == t
  }

  lemma OccursLater(s: string, k: int, t: string)
    requires s != "" && k >= 1
    ensures OccursAt(s, k, t) <==> OccursAt(s[1..], k - 1, t)
  {
    if k + |t| <= |s| {
      assert s[1..][k - 1..k - 1 + |t|] == s[k..k + |t|];
    }
  }

  /** What is found is the first occurrence, and nothing is found only where there
      is none. */
  lemma {:induction false} IndexOfTextExact(s: string, t: string)
    ensures var i := IndexOfText(s, t);
            && (i >= 0 ==> OccursAt(s, i, t) && forall k :: k < i ==> !OccursAt(s, k, t))
            && (i < 0 ==> forall k :: !OccursAt(s, k, t))
    decreases |s|
  {
    if |s| >= |t| && !OccursAt(s, 0, t) && s != "" {
      IndexOfTextExact(s[1..], t);
      forall k | k >= 1 ensures OccursAt(s, k, t) <==> OccursAt(s[1..], k - 1, t) {
        OccursLater(s, k, t);
      }
      assert s[..|t|] == s[0..0 + |t|];
    }
  }

  /** Trimming drops space from both ends, all of it, and nothing else. */
  lemma TrimExact(s: string)
    ensures exists l, r :: s == l + Trim(s) + r && Blank(l) && Blank(r)
    ensures Trim(s) != "" ==> !IsSpace(Trim(s)[0]) && !IsSpace(Trim(s)[|Trim(s)| - 1])
  {
    var l := TrimLeftExact(s);
    var r := TrimRightExact(TrimLeft(s));
    assert s == l + Trim(s) + r;
  }

  lemma {:induction false} TrimLeftExact(s: string) returns (l: string)
    ensures s == l + TrimLeft(s) && Blank(l)
    ensures TrimLeft(s) != "" ==> !IsSpace(TrimLeft(s)[0])
    decreases |s|
  {
    if s != "" && IsSpace(s[0]) {
      l := TrimLeftExact(s[1..]);
      l := [s[0]] + l;
    } else {
      l := "";
    }
  }

  lemma {:induction false} TrimRightExact(s: string) returns (r: string)
    ensures s == TrimRight(s) + r && Blank(r)
    ensures TrimRight(s) != "" ==> TrimRight(s)[0] == s[0] && !IsSpace(TrimRight(s)[|TrimRight(s)| - 1])
    decreases |s|
  {
    if s != "" && IsSpace(s[|s| - 1]) {
      r := TrimRightExact(s[..|s| - 1]);
      r := r + [s[|s| - 1]];
    } else {
      r := "";
    }
  }

  // ----- quoting

  predicate Special(c: char) {
    c == '\\' || c == '"'
  }

  /** digestQuoter: a backslash before each backslash and quote. */
  function Escape(s: string): string {
    if s == "" then ""
    else (if Special(s[0]) then ['\\', s[0]] else [s[0]]) + Escape(s[1..])
  }

  /** digestUnquoter: scanning from the left, an escaped quote or backslash
      becomes the character itself; any other backslash stays. */
  function Unescape(s: string): string {
    if s == "" then ""
    else if |s| >= 2 && s[0] == '\\' && Special(s[1]) then [s[1]] + Unescape(s[2..])
    else [s[0]] + Unescape(s[1..])
  }

  function Quote(s: string): string {
    "\"" + Escape(s) + "\""
  }

  /** Unquoting undoes quoting, whatever the text. */
  lemma {:induction false} UnescapeEscape(s: string)
    ensures Unescape(Escape(s)) == s
  {
    if s != "" {
      UnescapeEscape(s[1..]);
      var head := if Special(s[0]) then ['\\', s[0]] else [s[0]];
      assert Escape(s) == head + Escape(s[1..]);
      if Special(s[0]) {
        assert Escape(s)[2..] == Escape(s[1..]);
      } else {
        assert Escape(s)[1..] == Escape(s[1..]);
      }
      assert s == [s[0]] + s[1..];
    }
  }

  /** Text in which no backslash stands before a quote or a backslash is left
      alone: other backslashes mean nothing. */
  lemma {:induction false} UnescapeKeeps(s: string)
    requires forall i :: 0 <= i < |s| - 1 ==> s[i] == '\\' ==> !Special(s[i + 1])
    ensures Unescape(s) == s
  {
    if s != "" {
      UnescapeKeeps(s[1..]);
      assert s == [s[0]] + s[1..];
    }
  }

  // ----- splitting on commas outside quotes

  datatype Quoting = Quoting(inside: bool, escaped: bool)

  const OUTSIDE := Quoting(false, false)

  function Step(q: Quoting, c: char): Quoting {
    if q.escaped then q.(escaped := false)
    else if c == '\\' && q.inside then q.(escaped := true)
    else if c == '"' then q.(inside := !q.inside)
    else q
  }

  /** A comma that separates parameters. */
  predicate Cuts(q: Quoting, c: char) {
    c == ',' && !q.escaped && !q.inside
  }

  function Walk(q: Quoting, s: string): Quoting
    decreases |s|
  {
    if s == "" then q else Walk(Step(q, s[0]), s[1..])
  }

  /** No separating comma in s. */
  predicate Uncut(q: Quoting, s: string)
    decreases |s|
  {
    s != "" ==> !Cuts(q, s[0]) && Uncut(Step(q, s[0]), s[1..])
  }

  /** The pieces of s, with cur already read of the first. */
  function Pieces(q: Quoting, s: string, cur: string): seq<string>
    decreases |s|
  {
    if s == "" then
      if Blank(cur) then [] else [cur]
    else if Cuts(q, s[0]) then
      [cur] + Pieces(q, s[1..], "")
    else
      Pieces(Step(q, s[0]), s[1..], cur + [s[0]])
  }

  function Split(s: string): seq<string> {
    Pieces(OUTSIDE, s, "")
  }

  /** splitDigestParams. */
  method SplitDigestParams(s: string) returns (parts: seq<string>)
    ensures parts == Split(s)
  {
    parts := [];
    var cur := "";
    var inQuotes, escaped := false, false;
    for i := 0 to |s|
      invariant parts + Pieces(Quoting(inQuotes, escaped), s[i..], cur) == Split(s)
    {
      var r := s[i];
      assert s[i..][0] == r && s[i..][1..] == s[i + 1..];
      if escaped {
        escaped := false;
        cur := cur + [r];
      } else if r == '\\' && inQuotes {
        escaped := true;
        cur := cur + [r];
      } else if r == '"' {
        inQuotes := !inQuotes;
        cur := cur + [r];
      } else if r == ',' && !inQuotes {
        parts := parts + [cur];
        cur := "";
      } else {
        cur := cur + [r];
      }
    }
    if !Blank(cur) {
      parts := parts + [cur];
    }
  }

  /** Text without a separating comma is read into the current piece whole. */
  lemma {:induction false} PiecesSkip(q: Quoting, s: string, rest: string, cur: string)
    requires Uncut(q, s)
    ensures Pieces(q, s + rest, cur) == Pieces(Walk(q, s), rest, cur + s)
    decreases |s|
  {
    if s == "" {
      assert s + rest == rest && cur + s == cur;
    } else {
      assert (s + rest)[0] == s[0] && (s + rest)[1..] == s[1..] + rest;
      PiecesSkip(Step(q, s[0]), s[1..], rest, cur + [s[0]]);
      assert cur + [s[0]] + s[1..] == cur + s;
    }
  }

  lemma {:induction false} WalkConcat(q: Quoting, s: string, t: string)
    ensures Walk(q, s + t) == Walk(Walk(q, s), t)
    ensures Uncut(q, s + t) <==> Uncut(q, s) && Uncut(Walk(q, s), t)
    decreases |s|
  {
    if s == "" {
      assert s + t == t;
    } else {
      assert (s + t)[0] == s[0] && (s + t)[1..] == s[1..] + t;
      WalkConcat(Step(q, s[0]), s[1..], t);
    }
  }

  function Join(parts: seq<string>): string {
    if parts == [] then ""
    else if |parts| == 1 then parts[0]
    else parts[0] + "," + Join(parts[1..])
  }

  /** What splitting does to any text, well formed or not: the pieces joined by
      commas give the text back, but for a blank last piece; each piece but the
      last ends outside quotes, so no cut falls inside a quoted value; and no
      piece contains a comma that should have cut it. */
  lemma SplitExact(s: string)
    ensures var parts := Split(s);
            && (exists tail :: Blank(tail) && (Join(parts) == s || Join(parts + [tail]) == s))
            && (forall i :: 0 <= i < |parts| ==> Uncut(OUTSIDE, parts[i]))
            && (forall i :: 0 <= i < |parts| - 1 ==> Walk(OUTSIDE, parts[i]) == OUTSIDE)
  {
    PiecesExact(OUTSIDE, s, "");
    assert "" + s == s;
  }

  lemma {:induction false} PiecesExact(q: Quoting, s: string, cur: string)
    requires Walk(OUTSIDE, cur) == q && Uncut(OUTSIDE, cur)
    ensures var parts := Pieces(q, s, cur);
            && (exists tail :: Blank(tail) && (Join(parts) == cur + s || Join(parts + [tail]) == cur + s))
            && (forall i :: 0 <= i < |parts| ==> Uncut(OUTSIDE, parts[i]))
            && (forall i :: 0 <= i < |parts| - 1 ==> Walk(OUTSIDE, parts[i]) == OUTSIDE)
    decreases |s|
  {
    var parts := Pieces(q, s, cur);
    if s == "" {
      assert cur + s == cur;
      if Blank(cur) {
        assert Join(parts + [cur]) == cur + s;
      } else {
        assert Blank("") && Join(parts) == cur + s;
      }
    } else if Cuts(q, s[0]) {
      WalkedOutside(q, cur);
      PiecesExact(OUTSIDE, s[1..], "");
      var rest := Pieces(OUTSIDE, s[1..], "");
      var tail :| Blank(tail) && (Join(rest) == "" + s[1..] || Join(rest + [tail]) == "" + s[1..]);
      JoinCut(cur, s, rest, tail);
    } else {
      WalkConcat(OUTSIDE, cur, [s[0]]);
      PiecesExact(Step(q, s[0]), s[1..], cur + [s[0]]);
      assert cur + [s[0]] + s[1..] == cur + s;
    }
  }

  lemma WalkedOutside(q: Quoting, cur: string)
    requires Cuts(q, ',')
    ensures q == OUTSIDE
  {
  }

  lemma JoinCut(cur: string, s: string, rest: seq<string>, tail: string)
    requires s != "" && s[0] == ',' && Blank(tail)
    requires Join(rest) == s[1..] || Join(rest + [tail]) == s[1..]
    ensures exists t :: Blank(t) && (Join([cur] + rest) == cur + s || Join([cur] + rest + [t]) == cur + s)
  {
    assert cur + s == cur + "," + s[1..];
    assert [cur] + rest + [tail] == [cur] + (rest + [tail]);
    assert ([cur] + (rest + [tail]))[1..] == rest + [tail];
    if Join(rest + [tail]) == s[1..] {
      assert Join([cur] + rest + [tail]) == cur + s;
    } else if rest == [] {
      assert Blank("") && ([cur] + rest + [""])[1..] == [""];
      assert Join([cur] + rest + [""]) == cur + s;
    } else {
      assert ([cur] + rest)[1..] == rest;
      assert Join([cur] + rest) == cur + s;
    }
  }
}
