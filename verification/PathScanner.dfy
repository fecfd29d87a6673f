/** The two attachment patterns of the path repair, as explicit scanners.

    A text is a sequence of Unicode characters.  Each pattern is a fixed prefix, a body
    without parentheses or line breaks, and a closing parenthesis; the marker pattern also
    skips white space around its body.  `MatchHere` finds the match that starts at the first
    character; `Denotes` is the regular expression itself, read declaratively. */
module PathScanner {
  import opened Options
  import opened WhiteSpace

  datatype Pattern = Marker | FileLink

  predicate IsParen(c: char) { c == '(' || c == ')' }

  predicate IsSlash(c: char) { c == '/' || c == '\\' }

  predicate AllSpace(t: string) { forall i :: 0 <= i < |t| ==> IsSpace(t[i]) }

  predicate NoParen(t: string) { forall i :: 0 <= i < |t| ==> !IsParen(t[i]) }

  predicate NoBreak(t: string) { '\r' !in t && '\n' !in t }

  /** The number of characters before the first parenthesis, or all of them. */
  function ParenFree(t: string): (n: nat)
    ensures n <= |t| && NoParen(t[..n])
    ensures n < |t| ==> IsParen(t[n])
  {
    if t == [] || IsParen(t[0]) then 0 else
      var n := ParenFree(t[1..]);
      assert t[..1 + n] == [t[0]] + t[1..][..n];
      1 + n
  }

  function Prefix(p: Pattern): (s: string)
    ensures |s| >= 1
  {
    match p case Marker => "(файл:" case FileLink => "](file:"
  }

  /** The text between prefix and closing parenthesis, when the pattern accepts it there. */
  predicate BodyAccepted(p: Pattern, body: string) {
    match p case Marker => NoBreak(Strip(body)) case FileLink => NoBreak(body)
  }

  /** The length of the match that starts at the first character, if there is one. */
  function MatchHere(p: Pattern, t: string): (r: Option<nat>)
    ensures r.Some? ==> |Prefix(p)| < r.value <= |t|
  {
    var n := |Prefix(p)|;
    if !(Prefix(p) <= t) then None else
      var k := ParenFree(t[n..]);
      if n + k < |t| && t[n + k] == ')' && BodyAccepted(p, t[n..n + k]) then Some(n + k + 1) else None
  }

  /** The regular expression, declaratively: prefix, white space `w1`, group `g`, white space
      `w2`, closing parenthesis. */
  ghost predicate Denotes(p: Pattern, s: string, w1: string, g: string, w2: string) {
    && s == Prefix(p) + w1 + g + w2 + ")"
    && NoParen(g) && NoBreak(g)
    && AllSpace(w1) && AllSpace(w2)
    && (p.FileLink? ==> w1 == [] && w2 == [])
  }

  // ---- Stripping ---------------------------------------------------------------------------

  lemma {:induction false} StripLeftOf(w: string, t: string)
    requires AllSpace(w)
    ensures StripLeft(w + t) == StripLeft(t)
  {
    if w == [] {
      assert w + t == t;
    } else {
      assert (w + t)[1..] == w[1..] + t;
      StripLeftOf(w[1..], t);
    }
  }

  lemma {:induction false} StripRightOf(t: string, w: string)
    requires AllSpace(w)
    ensures StripRight(t + w) == StripRight(t)
  {
    if w == [] {
      assert t + w == t;
    } else {
      assert (t + w)[..|t + w| - 1] == t + w[..|w| - 1];
      StripRightOf(t, w[..|w| - 1]);
    }
  }

  lemma {:induction false} StripLeftSplit(t: string) returns (w: string)
    ensures AllSpace(w) && t == w + StripLeft(t)
    ensures StripLeft(t) == [] || !IsSpace(StripLeft(t)[0])
  {
    if t != [] && IsSpace(t[0]) {
      var v := StripLeftSplit(t[1..]);
      w := [t[0]] + v;
    } else {
      w := [];
    }
  }

  lemma {:induction false} StripRightSplit(t: string) returns (w: string)
    ensures AllSpace(w) && t == StripRight(t) + w
    ensures StripRight(t) == [] || !IsSpace(StripRight(t)[|StripRight(t)| - 1])
  {
    if t != [] && IsSpace(t[|t| - 1]) {
      var v := StripRightSplit(t[..|t| - 1]);
      w := v + [t[|t| - 1]];
      assert t == t[..|t| - 1] + [t[|t| - 1]];
    } else {
      w := [];
    }
  }

  /** A text is its stripped form between two runs of white space. */
  lemma StripSplit(t: string) returns (w1: string, w2: string)
    ensures AllSpace(w1) && AllSpace(w2) && t == w1 + Strip(t) + w2
  {
    w1 := StripLeftSplit(t);
    w2 := StripRightSplit(StripLeft(t));
  }

  lemma {:induction false} StripLeftNonSpace(t: string, u: string)
    requires t != [] && !IsSpace(t[0])
    ensures StripLeft(t + u) == t + u
  {}

  /** Stripping `w1 + g + w2` is stripping `g`. */
  lemma StripAround(w1: string, g: string, w2: string)
    requires AllSpace(w1) && AllSpace(w2)
    ensures Strip(w1 + g + w2) == Strip(g)
  {
    assert w1 + g + w2 == w1 + (g + w2);
    StripLeftOf(w1, g + w2);
    var v := StripLeftSplit(g);
    if StripLeft(g) == [] {
      assert g + w2 == v + w2;
      assert AllSpace(v + w2);
      var x := StripLeftSplit(v + w2);
      assert StripLeft(g + w2) == [] by {
        StripLeftOf(v + w2, []);
        assert v + w2 + [] == v + w2;
      }
    } else {
      assert g + w2 == v + (StripLeft(g) + w2);
      StripLeftOf(v, StripLeft(g) + w2);
      StripLeftNonSpace(StripLeft(g), w2);
      StripRightOf(StripLeft(g), w2);
    }
  }

  // ---- The scanner is the regular expression -------------------------------------------------

  lemma {:induction false} ParenFreeOf(a: string, c: char, b: string)
    requires NoParen(a) && IsParen(c)
    ensures ParenFree(a + [c] + b) == |a|
  {
    if a == [] {
      assert a + [c] + b == [c] + b;
    } else {
      assert (a + [c] + b)[1..] == a[1..] + [c] + b;
      ParenFreeOf(a[1..], c, b);
    }
  }

  /** The body a match scanned, and what the scanner says about any text that starts with it. */
  lemma MatchExtends(p: Pattern, body: string, rest: string)
    requires NoParen(body)
    ensures MatchHere(p, Prefix(p) + body + ")" + rest)
         == if BodyAccepted(p, body) then Some(|Prefix(p)| + |body| + 1) else None
  {
    var t := Prefix(p) + body + ")" + rest;
    assert t[|Prefix(p)|..] == body + ")" + rest;
    ParenFreeOf(body, ')', rest);
    assert t[|Prefix(p)|..|Prefix(p)| + |body|] == body;
  }

  /** What a successful scan says about the text. */
  lemma MatchShape(p: Pattern, t: string) returns (body: string)
    requires MatchHere(p, t).Some?
    ensures var e := MatchHere(p, t).value;
      && NoParen(body) && BodyAccepted(p, body)
      && t[..e] == Prefix(p) + body + ")" && t == Prefix(p) + body + ")" + t[e..]
  {
    var n := |Prefix(p)|;
    var k := ParenFree(t[n..]);
    body := t[n..n + k];
    assert body == t[n..][..k];
    assert t[..n + k + 1] == Prefix(p) + body + ")";
  }

  lemma StripNoParen(t: string)
    requires NoParen(t)
    ensures NoParen(Strip(t))
  {
    var g := Strip(t);
    var w1, w2 := StripSplit(t);
    hide Strip, IsParen;
    forall i | 0 <= i < |g| ensures !IsParen(g[i]) { assert t[|w1| + i] == g[i]; }
  }

  lemma SpaceIsNoParen(w: string)
    requires AllSpace(w)
    ensures NoParen(w)
  {}

  lemma MatchedIsDenoted(p: Pattern, t: string, e: nat) returns (w1: string, g: string, w2: string)
    requires e <= |t| && MatchHere(p, t) == Some(e)
    ensures Denotes(p, t[..e], w1, g, w2)
  {
    var body := MatchShape(p, t);
    hide MatchHere, Strip, NoParen, NoBreak, AllSpace, Prefix;
    if p.Marker? {
      w1, w2 := StripSplit(body);
      g := Strip(body);
      StripNoParen(body);
      Regroup(Prefix(p), w1, g, w2, ")");
    } else {
      w1, g, w2 := [], body, [];
      assert AllSpace([]) by { EmptyIsSpace(); }
      Regroup(Prefix(p), [], body, [], ")");
    }
  }

  lemma EmptyIsSpace()
    ensures AllSpace([])
  {}

  lemma Regroup(a: string, b: string, c: string, d: string, e: string)
    ensures a + (b + c + d) + e == a + b + c + d + e
  {}

  /** Whichever way the group is chosen, the scan ends where the expression ends, and
      stripping the group gives the stripped body. */
  lemma DenotedIsMatched(p: Pattern, t: string, e: nat, w1: string, g: string, w2: string)
    requires e <= |t| && Denotes(p, t[..e], w1, g, w2)
    ensures MatchHere(p, t) == Some(e)
    ensures |Prefix(p)| < e && Strip(g) == Strip(t[|Prefix(p)|..e - 1])
  {
    hide Strip, BodyAccepted, MatchHere, Prefix;
    var body := w1 + g + w2;
    SpaceIsNoParen(w1);
    SpaceIsNoParen(w2);
    GroupAccepted(p, w1, g, w2);
    assert t[..e] == Prefix(p) + body + ")" && NoParen(body);
    hide AllSpace, NoBreak, NoParen, Denotes;
    assert t == Prefix(p) + body + ")" + t[e..] by { assert t == t[..e] + t[e..]; }
    assert t[|Prefix(p)|..e - 1] == t[..e][|Prefix(p)|..e - 1] == body;
    MatchExtends(p, body, t[e..]);
  }

  lemma GroupAccepted(p: Pattern, w1: string, g: string, w2: string)
    requires NoBreak(g) && AllSpace(w1) && AllSpace(w2)
    requires p.FileLink? ==> w1 == [] && w2 == []
    ensures BodyAccepted(p, w1 + g + w2) && Strip(w1 + g + w2) == Strip(g)
  {
    StripAround(w1, g, w2);
    if p.Marker? {
      var v1, v2 := StripSplit(g);
      hide Strip;
      forall c | c in Strip(g) ensures c in g {}
    } else {
      assert w1 + g + w2 == g;
    }
  }

  /** `MatchHere` accepts exactly the prefixes of the text the regular expression denotes. */
  lemma ScannerIsRegex(p: Pattern, t: string, e: nat)
    requires e <= |t|
    ensures MatchHere(p, t) == Some(e) <==> exists w1, g, w2 :: Denotes(p, t[..e], w1, g, w2)
  {
    if MatchHere(p, t) == Some(e) {
      var w1, g, w2 := MatchedIsDenoted(p, t, e);
    }
    if w1, g, w2 :| Denotes(p, t[..e], w1, g, w2) {
      DenotedIsMatched(p, t, e, w1, g, w2);
    }
  }

  // ---- Paths ---------------------------------------------------------------------------------

  predicate IsLetter(c: char) { 'A' <= c <= 'Z' || 'a' <= c <= 'z' }

  /** A Windows drive or a leading slash of either kind. */
  predicate IsAbsolute(token: string) {
    || (|token| >= 1 && IsSlash(token[0]))
    || (|token| >= 3 && IsLetter(token[0]) && token[1] == ':' && IsSlash(token[2]))
  }

  function TrimSlashes(t: string): string {
    if t != [] && IsSlash(t[|t| - 1]) then TrimSlashes(t[..|t| - 1]) else t
  }

  /** The part after the last slash of either kind. */
  function LastPart(t: string): string {
    if t == [] || IsSlash(t[|t| - 1]) then [] else LastPart(t[..|t| - 1]) + [t[|t| - 1]]
  }

  /** `attachments/<file name>` for an absolute path, and nothing for any other token. */
  function RelativePath(token: string): Option<string> {
    if IsAbsolute(token) then Some("attachments/" + LastPart(TrimSlashes(token))) else None
  }

  function Render(p: Pattern, path: string): string {
    match p case Marker => "(файл: " + path + ")" case FileLink => "](" + path + ")"
  }

  /** The match at the first character, when its path is absolute: what the pass edits. */
  function EditHere(p: Pattern, t: string): (r: Option<nat>)
    ensures r.Some? ==> |Prefix(p)| < r.value <= |t|
  {
    match MatchHere(p, t)
    case None => None
    case Some(e) => if IsAbsolute(Strip(t[|Prefix(p)|..e - 1])) then Some(e) else None
  }

  /** What replaces the edited match. */
  function Replacement(p: Pattern, t: string): (r: string)
    requires EditHere(p, t).Some?
    ensures r != []
  {
    Render(p, RelativePath(Strip(t[|Prefix(p)|..EditHere(p, t).value - 1])).value)
  }

  lemma {:induction false} TrimSlashesPrefix(t: string)
    ensures |TrimSlashes(t)| <= |t| && TrimSlashes(t) == t[..|TrimSlashes(t)|]
  {
    if t != [] && IsSlash(t[|t| - 1]) {
      TrimSlashesPrefix(t[..|t| - 1]);
    }
  }

  lemma {:induction false} LastPartSplit(t: string) returns (front: string)
    ensures t == front + LastPart(t) && (front == [] || IsSlash(front[|front| - 1]))
  {
    hide IsSlash;
    if t == [] || IsSlash(t[|t| - 1]) {
      front := t;
    } else {
      front := LastPartSplit(t[..|t| - 1]);
      Rejoin(t, front, LastPart(t[..|t| - 1]));
    }
  }

  lemma Rejoin(t: string, front: string, part: string)
    requires t != [] && t[..|t| - 1] == front + part
    ensures t == front + (part + [t[|t| - 1]])
  {
    assert t == t[..|t| - 1] + [t[|t| - 1]];
  }

  lemma {:induction false} LastPartHasNoSlash(t: string)
    ensures forall i :: 0 <= i < |LastPart(t)| ==> !IsSlash(LastPart(t)[i])
  {
    hide IsSlash;
    if t != [] && !IsSlash(t[|t| - 1]) { LastPartHasNoSlash(t[..|t| - 1]); }
  }

  /** A file name is a suffix of the path and holds no slash. */
  lemma LastPartSuffix(t: string)
    ensures |LastPart(t)| <= |t| && LastPart(t) == t[|t| - |LastPart(t)|..]
    ensures forall i :: 0 <= i < |LastPart(t)| ==> !IsSlash(LastPart(t)[i])
    ensures |LastPart(t)| < |t| ==> IsSlash(t[|t| - |LastPart(t)| - 1])
  {
    var front := LastPartSplit(t);
    LastPartHasNoSlash(t);
    hide LastPart, IsSlash;
  }

  /** Shortening keeps the file name, drops every directory and yields a path that is no
      longer absolute and holds no parenthesis the token did not hold. */
  lemma RelativePathIsRelative(token: string)
    requires IsAbsolute(token)
    ensures var r := RelativePath(token).value;
      && !IsAbsolute(r) && !IsAbsolute(Strip(r)) && !IsAbsolute(Strip(" " + r))
      && (NoParen(token) ==> NoParen(r))
      && forall i :: |"attachments/"| <= i < |r| ==> !IsSlash(r[i])
  {
    NameOfPath(token);
    StaysRelative(RelativePath(token).value);
  }

  /** The file name of a path is within the path and holds no slash. */
  lemma NameOfPath(token: string)
    requires IsAbsolute(token)
    ensures var r := RelativePath(token).value;
      && |r| >= 2 && r[0] == 'a' && r[1] == 't'
      && (NoParen(token) ==> NoParen(r))
      && forall i :: |"attachments/"| <= i < |r| ==> !IsSlash(r[i])
  {
    var trimmed := TrimSlashes(token);
    TrimSlashesPrefix(token);
    LastPartSuffix(trimmed);
    var name := LastPart(trimmed);
    assert forall i :: 0 <= i < |name| ==> name[i] == token[|trimmed| - |name| + i];
    var r := RelativePath(token).value;
    assert r == "attachments/" + name;
    forall i | |"attachments/"| <= i < |r| ensures !IsSlash(r[i]) {
      assert r[i] == name[i - |"attachments/"|];
    }
  }

  lemma StaysRelative(r: string)
    requires |r| >= 2 && r[0] == 'a' && r[1] == 't'
    ensures !IsAbsolute(r) && !IsAbsolute(Strip(r)) && !IsAbsolute(Strip(" " + r))
  {
    StripKeepsHead(r);
    assert " " + r == [' '] + r;
    StripLeftOf(" ", r);
  }

  lemma StripKeepsHead(t: string)
    requires |t| >= 2 && t[0] == 'a' && t[1] == 't'
    ensures !IsAbsolute(Strip(t))
  {
    assert StripLeft(t) == t;
    var w := StripRightSplit(t);
    if |StripRight(t)| >= 2 {
      assert StripRight(t)[0] == t[0] && StripRight(t)[1] == t[1];
    } else if |StripRight(t)| == 1 {
      assert StripRight(t)[0] == t[0];
    }
  }
}
