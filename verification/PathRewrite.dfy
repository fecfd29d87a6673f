/** One substitution pass, the two passes of the path repair, and how text positions move. */
module PathRewrite {
  import opened Options
  import opened PathScanner

  /** `pattern.sub(replace, text)`: leftmost matches, never overlapping, each replaced by the
      shortened path when its path is absolute and copied unchanged otherwise. */
  function Substitute(p: Pattern, t: string): string
    decreases |t|
  {
    if t == [] then [] else
      match MatchHere(p, t)
      case None => [t[0]] + Substitute(p, t[1..])
      case Some(e) =>
        (if EditHere(p, t).Some? then Replacement(p, t) else t[..e]) + Substitute(p, t[e..])
  }

  /** The same text, reading a match that is not edited one character at a time. */
  function Rewrite(p: Pattern, t: string): string
    decreases |t|
  {
    if t == [] then [] else
      match EditHere(p, t)
      case None => [t[0]] + Rewrite(p, t[1..])
      case Some(e) => Replacement(p, t) + Rewrite(p, t[e..])
  }

  /** Both passes, markers first. */
  function RewriteAll(t: string): string { Rewrite(FileLink, Rewrite(Marker, t)) }

  // ---- Matches stand alone -------------------------------------------------------------------

  /** Whether a pattern matches at a position depends on nothing outside the match. */
  lemma MatchIsLocal(p: Pattern, t: string, n: nat)
    requires n <= |t|
    ensures MatchHere(p, t[..n]) == if MatchHere(p, t).Some? && MatchHere(p, t).value <= n
                                    then MatchHere(p, t) else None
  {
    hide MatchHere;
    if MatchHere(p, t).Some? && MatchHere(p, t).value <= n { MatchKept(p, t, n); }
    if MatchHere(p, t[..n]).Some? { MatchFound(p, t, n); }
  }

  lemma MatchKept(p: Pattern, t: string, n: nat)
    requires n <= |t| && MatchHere(p, t).Some? && MatchHere(p, t).value <= n
    ensures MatchHere(p, t[..n]) == MatchHere(p, t)
  {
    hide MatchHere, Prefix, BodyAccepted;
    var e := MatchHere(p, t).value;
    var body := MatchShape(p, t);
    assert t[..n] == t[..e] + t[e..n];
    MatchExtends(p, body, t[e..n]);
  }

  lemma MatchFound(p: Pattern, t: string, n: nat)
    requires n <= |t| && MatchHere(p, t[..n]).Some?
    ensures MatchHere(p, t) == MatchHere(p, t[..n]) && MatchHere(p, t[..n]).value <= n
  {
    hide MatchHere, Prefix, BodyAccepted;
    var e := MatchHere(p, t[..n]).value;
    var body := MatchShape(p, t[..n]);
    assert t[..n][..e] == t[..e];
    assert t == t[..e] + t[e..];
    MatchExtends(p, body, t[e..]);
  }

  lemma EditIsLocal(p: Pattern, t: string, n: nat)
    requires n <= |t|
    ensures EditHere(p, t[..n]) == if EditHere(p, t).Some? && EditHere(p, t).value <= n
                                   then EditHere(p, t) else None
    ensures EditHere(p, t[..n]).Some? ==> Replacement(p, t[..n]) == Replacement(p, t)
  {
    MatchIsLocal(p, t, n);
    if MatchHere(p, t[..n]).Some? {
      SameMatchSameEdit(p, t, n, MatchHere(p, t).value);
      hide EditHere, MatchHere, Replacement;
    } else {
      hide MatchHere, Replacement, IsAbsolute;
    }
  }

  lemma SameMatchSameEdit(p: Pattern, t: string, n: nat, e: nat)
    requires n <= |t| && MatchHere(p, t) == Some(e) && MatchHere(p, t[..n]) == Some(e)
    ensures EditHere(p, t[..n]) == EditHere(p, t)
    ensures EditHere(p, t).Some? ==> EditHere(p, t).value == e <= n && Replacement(p, t[..n]) == Replacement(p, t)
  {
    hide MatchHere, Prefix, IsAbsolute, RelativePath, Render;
    var k := |Prefix(p)|;
    assert t[..n][k..e - 1] == t[k..e - 1];
  }

  lemma MatchStarts(p: Pattern, t: string)
    requires MatchHere(p, t).Some?
    ensures Prefix(p) <= t
  {}

  /** A match holds one opening parenthesis, near its start, and ends with a closing one. */
  lemma MatchParens(p: Pattern, t: string)
    requires MatchHere(p, t).Some?
    ensures var e := MatchHere(p, t).value;
      && t[e - 1] == ')'
      && forall i :: 0 <= i < e && t[i] == '(' ==> i == if p.Marker? then 0 else 1
  {
    var e := MatchHere(p, t).value;
    var body := MatchShape(p, t);
    hide MatchHere;
    var n := |Prefix(p)|;
    forall i | 0 <= i < e ensures t[i] == '(' ==> i == if p.Marker? then 0 else 1 {
      assert t[i] == (Prefix(p) + body + ")")[i];
      if n <= i < n + |body| {
        assert !IsParen(body[i - n]);
      }
    }
  }

  /** No match of a pattern starts strictly inside a match of either pattern. */
  lemma NoMatchInside(p: Pattern, q: Pattern, t: string, k: nat)
    requires MatchHere(p, t).Some? && 0 < k < MatchHere(p, t).value
    ensures MatchHere(q, t[k..]).None?
  {
    var e := MatchHere(p, t).value;
    MatchParens(p, t);
    MatchStarts(p, t);
    assert !(Prefix(q) <= t[k..]) by {
      hide MatchHere;
      var u := t[k..];
      if q.Marker? {
        if k == 1 && p.FileLink? {
          assert t[2] == Prefix(p)[2];
          assert |u| > 1 ==> u[1] == t[2];
        } else {
          assert t[k] != '(';
          assert u[0] == t[k];
        }
      } else if k + 1 < e {
        assert t[k + 1] != '(';
        assert u[1] == t[k + 1];
      } else {
        assert u[0] == t[e - 1];
      }
    }
  }

  /** Nothing is edited at the first `n` positions. */
  ghost predicate Still(p: Pattern, t: string, n: nat)
    requires n <= |t|
  {
    forall k :: 0 <= k < n ==> EditHere(p, t[k..]).None?
  }

  lemma StillTail(p: Pattern, t: string, n: nat, m: nat)
    requires m <= n <= |t| && Still(p, t, n)
    ensures Still(p, t[m..], n - m)
  {
    forall k | 0 <= k < n - m ensures EditHere(p, t[m..][k..]).None? {
      assert t[m..][k..] == t[m + k..];
    }
  }

  lemma {:induction false} CopyStill(p: Pattern, t: string, n: nat)
    requires n <= |t| && Still(p, t, n)
    ensures Rewrite(p, t) == t[..n] + Rewrite(p, t[n..])
    decreases n
  {
    hide EditHere, Replacement;
    assert t[0..] == t;
    if n > 0 {
      StillTail(p, t, n, 1);
      CopyStill(p, t[1..], n - 1);
      assert EditHere(p, t[0..]).None?;
      assert t[1..][n - 1..] == t[n..];
      hide Still, Rewrite;
      Associate([t[0]], t[1..][..n - 1], Rewrite(p, t[n..]));
      assert [t[0]] + t[1..][..n - 1] == t[..n];
    }
  }

  /** Reading unedited matches character by character changes nothing. */
  lemma {:induction false} SubstituteIsRewrite(p: Pattern, t: string)
    ensures Substitute(p, t) == Rewrite(p, t)
    decreases |t|
  {
    if t != [] {
      match MatchHere(p, t)
      case None => SubstituteIsRewrite(p, t[1..]);
      case Some(e) =>
        SubstituteIsRewrite(p, t[e..]);
        if EditHere(p, t).None? {
          forall k | 0 <= k < e ensures EditHere(p, t[k..]).None? {
            if k > 0 { NoMatchInside(p, p, t, k); } else { assert t[0..] == t; }
          }
          CopyStill(p, t, e);
        }
    }
  }

  // ---- Positions that no edit cuts -----------------------------------------------------------

  /** No edit of the pass has `pos` strictly inside it. */
  ghost predicate Uncut(p: Pattern, t: string, pos: nat)
    requires pos <= |t|
    decreases |t|
  {
    pos == 0 ||
    match EditHere(p, t)
    case None => Uncut(p, t[1..], pos - 1)
    case Some(e) => e <= pos && Uncut(p, t[e..], pos - e)
  }

  lemma Associate(a: string, b: string, c: string)
    ensures a + (b + c) == a + b + c
  {}

  /** An uncut position splits the text into two that are rewritten apart. */
  lemma {:induction false} RewriteSplits(p: Pattern, t: string, pos: nat)
    requires pos <= |t| && Uncut(p, t, pos)
    ensures Rewrite(p, t) == Rewrite(p, t[..pos]) + Rewrite(p, t[pos..])
    decreases |t|
  {
    hide EditHere, Replacement;
    if pos == 0 {
      assert t[0..] == t;
    } else {
      EditIsLocal(p, t, pos);
      match EditHere(p, t)
      case None =>
        RewriteSplits(p, t[1..], pos - 1);
        assert t[..pos][1..] == t[1..][..pos - 1];
        assert t[1..][pos - 1..] == t[pos..];
        Associate([t[0]], Rewrite(p, t[1..][..pos - 1]), Rewrite(p, t[pos..]));
      case Some(e) =>
        RewriteSplits(p, t[e..], pos - e);
        assert t[..pos][e..] == t[e..][..pos - e];
        assert t[e..][pos - e..] == t[pos..];
        Associate(Replacement(p, t), Rewrite(p, t[e..][..pos - e]), Rewrite(p, t[pos..]));
    }
  }

  /** Where an uncut position goes. */
  ghost function NewPos(p: Pattern, t: string, pos: nat): (r: nat)
    requires pos <= |t|
  {
    |Rewrite(p, t[..pos])|
  }

  lemma {:induction false} UncutAfter(p: Pattern, t: string, a: nat, b: nat)
    requires a <= b <= |t| && Uncut(p, t, a)
    ensures Uncut(p, t, b) <==> Uncut(p, t[a..], b - a)
    decreases |t|
  {
    hide EditHere, Replacement;
    if a == 0 {
      assert t[0..] == t;
    } else {
      match EditHere(p, t)
      case None =>
        UncutAfter(p, t[1..], a - 1, b - 1);
        assert t[1..][a - 1..] == t[a..];
      case Some(e) =>
        UncutAfter(p, t[e..], a - e, b - e);
        assert t[e..][a - e..] == t[a..];
    }
  }

  lemma {:induction false} RewriteNonEmpty(p: Pattern, t: string)
    requires t != []
    ensures Rewrite(p, t) != []
  {}

  /** Offset shifting commutes with one pass: an uncut range becomes a non-empty range in
      bounds, and the text it covers is the old text it covered, rewritten. */
  lemma RangeCommutes(p: Pattern, t: string, start: nat, end: nat)
    requires start < end <= |t| && Uncut(p, t, start) && Uncut(p, t, end)
    ensures NewPos(p, t, start) < NewPos(p, t, end) <= |Rewrite(p, t)|
    ensures Rewrite(p, t)[NewPos(p, t, start)..NewPos(p, t, end)] == Rewrite(p, t[start..end])
  {
    hide Rewrite, Uncut;
    RewriteSplits(p, t, end);
    UncutAfter(p, t, start, end);
    RewriteSplits(p, t, start);
    RewriteSplits(p, t[start..], end - start);
    var front, middle, back :=
      Rewrite(p, t[..start]), Rewrite(p, t[start..end]), Rewrite(p, t[end..]);
    assert t[start..][..end - start] == t[start..end];
    assert t[start..][end - start..] == t[end..];
    assert Rewrite(p, t) == front + (middle + back);
    assert Rewrite(p, t) == Rewrite(p, t[..end]) + back;
    assert Rewrite(p, t[..end]) == front + middle by {
      assert |Rewrite(p, t[..end])| == |front + middle|;
      assert (front + (middle + back))[..|front + middle|] == front + middle;
    }
    RewriteNonEmpty(p, t[start..end]);
  }

  // ---- The list of edits the code keeps --------------------------------------------------------

  datatype Edit = Edit(left: int, right: int, delta: int)

  /** The edits of one pass over `t`, when `t` starts at position `base` of the whole text. */
  function EditList(p: Pattern, t: string, base: int): seq<Edit>
    decreases |t|
  {
    if t == [] then [] else
      match EditHere(p, t)
      case None => EditList(p, t[1..], base + 1)
      case Some(e) =>
        [Edit(base, base + e, |Replacement(p, t)| - e)] + EditList(p, t[e..], base + e)
  }

  /** `any(left < pos < right for ...)`. */
  predicate Cuts(edits: seq<Edit>, pos: int) {
    exists i :: 0 <= i < |edits| && edits[i].left < pos < edits[i].right
  }

  /** `sum(delta for _left, right, delta in edits if right <= pos)`. */
  function DeltaBefore(edits: seq<Edit>, pos: int): int {
    if edits == [] then 0 else
      (if edits[0].right <= pos then edits[0].delta else 0) + DeltaBefore(edits[1..], pos)
  }

  lemma {:induction false} EditsAreRightOf(p: Pattern, t: string, base: int)
    ensures forall d :: d in EditList(p, t, base) ==> base <= d.left < d.right
    decreases |t|
  {
    hide EditHere, Replacement;
    if t != [] {
      match EditHere(p, t)
      case None => EditsAreRightOf(p, t[1..], base + 1);
      case Some(e) => EditsAreRightOf(p, t[e..], base + e);
    }
  }

  lemma {:induction false} DeltaOfLater(edits: seq<Edit>, pos: int)
    requires forall d :: d in edits ==> pos <= d.left < d.right
    ensures DeltaBefore(edits, pos) == 0
  {
    if edits != [] { DeltaOfLater(edits[1..], pos); }
  }

  lemma NoCutAtBase(p: Pattern, t: string, base: int)
    ensures !Cuts(EditList(p, t, base), base)
  {
    EditsAreRightOf(p, t, base);
  }

  lemma CutsCons(first: Edit, rest: seq<Edit>, pos: int)
    ensures Cuts([first] + rest, pos) <==> first.left < pos < first.right || Cuts(rest, pos)
  {
    var edits := [first] + rest;
    if first.left < pos < first.right {
      assert edits[0] == first;
    }
    if Cuts(rest, pos) {
      var i :| 0 <= i < |rest| && rest[i].left < pos < rest[i].right;
      assert edits[i + 1] == rest[i];
    }
  }

  /** The code's cut test over its edit list is the cut test of the pass. */
  lemma {:induction false} CutsAreListed(p: Pattern, t: string, base: int, pos: nat)
    requires pos <= |t|
    ensures Cuts(EditList(p, t, base), base + pos) <==> !Uncut(p, t, pos)
    decreases |t|
  {
    hide EditHere, Replacement, Cuts;
    if pos == 0 {
      NoCutAtBase(p, t, base);
    } else {
      match EditHere(p, t)
      case None =>
        CutsAreListed(p, t[1..], base + 1, pos - 1);
      case Some(e) =>
        var rest := EditList(p, t[e..], base + e);
        CutsCons(Edit(base, base + e, |Replacement(p, t)| - e), rest, base + pos);
        if pos < e {
        } else {
          CutsAreListed(p, t[e..], base + e, pos - e);
        }
    }
  }

  lemma NewPosAfterEdit(p: Pattern, t: string, pos: nat)
    requires EditHere(p, t).Some? && EditHere(p, t).value <= pos <= |t|
    ensures NewPos(p, t, pos)
         == |Replacement(p, t)| + NewPos(p, t[EditHere(p, t).value..], pos - EditHere(p, t).value)
  {
    var e := EditHere(p, t).value;
    EditIsLocal(p, t, pos);
    hide EditHere, Replacement;
    assert t[..pos][e..] == t[e..][..pos - e];
  }

  lemma NewPosAfterChar(p: Pattern, t: string, pos: nat)
    requires EditHere(p, t).None? && 0 < pos <= |t|
    ensures NewPos(p, t, pos) == 1 + NewPos(p, t[1..], pos - 1)
  {
    EditIsLocal(p, t, pos);
    hide EditHere, Replacement;
    assert t[..pos][1..] == t[1..][..pos - 1];
  }

  /** The code's sum of deltas moves an uncut position to the end of the rewritten front. */
  lemma {:induction false} DeltasAreShift(p: Pattern, t: string, base: int, pos: nat)
    requires pos <= |t| && Uncut(p, t, pos)
    ensures pos + DeltaBefore(EditList(p, t, base), base + pos) == NewPos(p, t, pos)
    decreases |t|
  {
    hide EditHere, Replacement, NewPos;
    var edits := EditList(p, t, base);
    if pos == 0 {
      EditsAreRightOf(p, t, base);
      DeltaOfLater(edits, base);
      NewPosOfStart(p, t);
    } else {
      match EditHere(p, t)
      case None =>
        DeltasAreShift(p, t[1..], base + 1, pos - 1);
        NewPosAfterChar(p, t, pos);
      case Some(e) =>
        assert edits[1..] == EditList(p, t[e..], base + e);
        DeltasAreShift(p, t[e..], base + e, pos - e);
        NewPosAfterEdit(p, t, pos);
    }
  }

  lemma NewPosOfStart(p: Pattern, t: string)
    ensures NewPos(p, t, 0) == 0
  {}
}
