/** What the two passes do to each other: no pass creates work for either, so the repair is a
    projection, and a position survives both exactly when no edit of the original text cuts it. */
module PathFixpoint {
  import opened Options
  import opened PathScanner
  import opened WhiteSpace
  import opened PathRewrite

  // ---- Matches before and after a pass --------------------------------------------------------

  /** The number of leading positions at which nothing is edited. */
  ghost function FirstEdit(p: Pattern, t: string): (n: nat)
    ensures n <= |t|
    decreases |t|
  {
    if t == [] || EditHere(p, t).Some? then 0 else 1 + FirstEdit(p, t[1..])
  }

  lemma {:induction false} FirstEditStill(p: Pattern, t: string)
    ensures Still(p, t, FirstEdit(p, t))
    ensures FirstEdit(p, t) < |t| ==> EditHere(p, t[FirstEdit(p, t)..]).Some?
    decreases |t|
  {
    hide EditHere;
    assert t[0..] == t;
    if t != [] && EditHere(p, t).None? {
      FirstEditStill(p, t[1..]);
      var n := FirstEdit(p, t[1..]);
      forall k | 0 <= k < 1 + n ensures EditHere(p, t[k..]).None? {
        if k > 0 { assert t[1..][k - 1..] == t[k..]; }
      }
      assert t[1..][n..] == t[1 + n..];
    }
  }

  /** The replacement in the words a scan uses. */
  lemma ReplacementShape(p: Pattern, t: string) returns (path: string)
    requires EditHere(p, t).Some?
    ensures Replacement(p, t) == Render(p, path)
    ensures NoParen(path) && |path| >= 2 && path[0] == 'a'
    ensures !IsAbsolute(Strip(path)) && !IsAbsolute(Strip(" " + path))
  {
    var token := TokenOf(p, t);
    hide Strip, EditHere, Replacement, Render;
    RelativePathIsRelative(token);
    path := RelativePath(token).value;
    assert path[0] == "attachments/"[0];
  }

  /** The path an edited match holds. */
  lemma TokenOf(p: Pattern, t: string) returns (token: string)
    requires EditHere(p, t).Some?
    ensures NoParen(token) && IsAbsolute(token)
    ensures Replacement(p, t) == Render(p, RelativePath(token).value)
  {
    var e := EditHere(p, t).value;
    var body := MatchShape(p, t);
    hide MatchHere, Strip, LastPart, TrimSlashes;
    token := Strip(t[|Prefix(p)|..e - 1]);
    assert t[|Prefix(p)|..e - 1] == body by { assert t[..e] == Prefix(p) + body + ")"; }
    StripNoParen(body);
  }

  /** Where a rendered path has parentheses. */
  lemma RenderParens(p: Pattern, path: string)
    requires NoParen(path)
    ensures var r := Render(p, path);
      && r[|r| - 1] == ')'
      && forall i :: 0 <= i < |r| && r[i] == '(' ==> i == if p.Marker? then 0 else 1
  {
    var r := Render(p, path);
    var head := if p.Marker? then "(файл: " else "](";
    assert r == head + path + ")";
    forall i | 0 <= i < |r| ensures r[i] == '(' ==> i == if p.Marker? then 0 else 1 {
      if |head| <= i < |r| - 1 { assert r[i] == path[i - |head|]; }
    }
  }

  /** Nothing is edited inside a replacement, whatever follows it. */
  lemma ReplacementStill(p: Pattern, q: Pattern, t: string, x: string)
    requires EditHere(p, t).Some?
    ensures Still(q, Replacement(p, t) + x, |Replacement(p, t)|)
  {
    var path := ReplacementShape(p, t);
    hide EditHere;
    hide Replacement;
    var r := Render(p, path);
    RenderParens(p, path);
    forall k | 0 <= k < |r| ensures EditHere(q, (r + x)[k..]).None? {
      RenderedStill(p, q, path, x, k);
    }
  }

  lemma RenderedStill(p: Pattern, q: Pattern, path: string, x: string, k: nat)
    requires NoParen(path) && |path| >= 2 && path[0] == 'a'
    requires !IsAbsolute(Strip(" " + path))
    requires k < |Render(p, path)|
    ensures EditHere(q, (Render(p, path) + x)[k..]).None?
  {
    var r := Render(p, path);
    RenderParens(p, path);
    var u := (r + x)[k..];
    if k == 0 && p.Marker? && q.Marker? {
      RenderedMarkerIsStill(path, x);
      assert u == r + x;
    } else {
      assert !(Prefix(q) <= u) by {
        if q.Marker? {
          if p.FileLink? && k == 1 {
            assert u[1] == r[2] == path[0];
          } else {
            assert u[0] == r[k];
          }
        } else if k + 1 < |r| {
          assert u[1] == r[k + 1];
          if p.FileLink? && k == 0 { assert u[2] == r[2] == path[0]; }
        } else {
          assert u[0] == r[|r| - 1];
        }
      }
    }
  }

  lemma RenderedMarkerIsStill(path: string, x: string)
    requires NoParen(path) && !IsAbsolute(Strip(" " + path))
    ensures EditHere(Marker, Render(Marker, path) + x).None?
  {
    var body := " " + path;
    var u := Render(Marker, path) + x;
    assert u == Prefix(Marker) + body + ")" + x;
    MatchExtends(Marker, body, x);
    assert u[|Prefix(Marker)|..|Prefix(Marker)| + |body|] == body;
  }

  /** The text with the first edit made, seen from its start. */
  lemma {:induction false} RewriteFirstEdit(p: Pattern, t: string)
    ensures var n := FirstEdit(p, t);
      && (n == |t| ==> Rewrite(p, t) == t)
      && (n < |t| ==> EditHere(p, t[n..]).Some?)
      && (n < |t| ==>
            var after := Rewrite(p, t[n..][EditHere(p, t[n..]).value..]);
            Rewrite(p, t) == t[..n] + Replacement(p, t[n..]) + after)
  {
    hide EditHere, Replacement;
    var n := FirstEdit(p, t);
    FirstEditStill(p, t);
    CopyStill(p, t, n);
    if n == |t| {
      assert t[n..] == [] && t[..n] == t;
    } else {
      Associate(t[..n], Replacement(p, t[n..]), Rewrite(p, t[n..][EditHere(p, t[n..]).value..]));
    }
  }

  /** A match at the start of a rewritten text reaches no replacement. */
  lemma MatchMissesReplacement(p: Pattern, q: Pattern, front: string, path: string, x: string)
    requires NoParen(path) && front != []
    requires MatchHere(q, front + Render(p, path) + x).Some?
    ensures MatchHere(q, front + Render(p, path) + x).value <= |front|
  {
    var u := front + Render(p, path) + x;
    var e := MatchHere(q, u).value;
    MatchParens(q, u);
    MatchStarts(q, u);
    RenderParens(p, path);
    hide MatchHere;
    var n := |front|;
    var r := Render(p, path);
    var o := if p.Marker? then 0 else 1;
    assert r[o] == '(' && u[n + o] == r[o];
    assert u[n] == r[0] && u[n + 1] == r[1];
    assert q.FileLink? ==> u[2] == Prefix(q)[2];
    assert n < e ==> n + o < e;
  }

  /** A match that is there before a pass is there after it. */
  lemma MatchSurvives(p: Pattern, q: Pattern, t: string)
    requires t != [] && EditHere(p, t).None? && MatchHere(q, t).Some?
    ensures MatchHere(q, Rewrite(p, t)) == MatchHere(q, t)
    ensures Rewrite(p, t)[..MatchHere(q, t).value] == t[..MatchHere(q, t).value]
  {
    UneditedMatchIsStill(p, q, t);
    hide MatchHere, EditHere;
    var e := MatchHere(q, t).value;
    CopyStill(p, t, e);
    SameFrontSameMatch(q, t, Rewrite(p, t), e);
  }

  /** A match that is there after a pass was there before it. */
  lemma MatchWasThere(p: Pattern, q: Pattern, t: string)
    requires t != [] && EditHere(p, t).None? && MatchHere(q, Rewrite(p, t)).Some?
    ensures MatchHere(q, Rewrite(p, t)) == MatchHere(q, t)
  {
    var u := Rewrite(p, t);
    hide MatchHere, EditHere, Rewrite, Replacement, Still;
    var e := MatchHere(q, u).value;
    var n := FirstEdit(p, t);
    FirstEditStill(p, t);
    RewriteFirstEdit(p, t);
    if n < |t| {
      var path := ReplacementShape(p, t[n..]);
      var x := Rewrite(p, t[n..][EditHere(p, t[n..]).value..]);
      assert u == t[..n] + Render(p, path) + x;
      MatchMissesReplacement(p, q, t[..n], path, x);
    }
    assert u[..e] == t[..e];
    SameFrontSameMatch(q, u, t, e);
  }

  lemma SameFrontSameMatch(q: Pattern, t: string, u: string, e: nat)
    requires MatchHere(q, t) == Some(e) && e <= |u| && u[..e] == t[..e]
    ensures MatchHere(q, u) == Some(e)
  {
    MatchIsLocal(q, t, e);
    MatchIsLocal(q, u, e);
  }

  lemma UneditedMatchIsStill(p: Pattern, q: Pattern, t: string)
    requires t != [] && EditHere(p, t).None? && MatchHere(q, t).Some?
    ensures Still(p, t, MatchHere(q, t).value)
  {
    forall k | 0 <= k < MatchHere(q, t).value ensures EditHere(p, t[k..]).None? {
      if k > 0 { NoMatchInside(q, p, t, k); } else { assert t[0..] == t; }
    }
  }

  /** A pass leaves the edits of both patterns at an unedited position as they were. */
  lemma EditsPersist(p: Pattern, q: Pattern, t: string)
    requires t != [] && EditHere(p, t).None?
    ensures EditHere(q, Rewrite(p, t)) == EditHere(q, t)
  {
    hide MatchHere, EditHere, Rewrite;
    if MatchHere(q, t).Some? {
      MatchSurvives(p, q, t);
    } else if MatchHere(q, Rewrite(p, t)).Some? {
      MatchWasThere(p, q, t);
    }
    SameMatchSameEdit(q, t, Rewrite(p, t));
  }

  lemma SameMatchSameEdit(q: Pattern, t: string, u: string)
    requires MatchHere(q, u) == MatchHere(q, t)
    requires MatchHere(q, t).Some? ==> u[..MatchHere(q, t).value] == t[..MatchHere(q, t).value]
    ensures EditHere(q, u) == EditHere(q, t)
  {
    hide MatchHere;
    if MatchHere(q, t).Some? {
      var e := MatchHere(q, t).value;
      assert u[|Prefix(q)|..e - 1] == u[..e][|Prefix(q)|..e - 1];
      assert t[|Prefix(q)|..e - 1] == t[..e][|Prefix(q)|..e - 1];
    }
  }

  // ---- The repair is a projection --------------------------------------------------------------

  ghost predicate AllStill(p: Pattern, t: string) { Still(p, t, |t|) }

  lemma StillJoins(q: Pattern, a: string, b: string)
    requires Still(q, a + b, |a|) && AllStill(q, b)
    ensures AllStill(q, a + b)
  {
    forall k | 0 <= k < |a + b| ensures EditHere(q, (a + b)[k..]).None? {
      if |a| <= k { assert (a + b)[k..] == b[k - |a|..]; }
    }
  }

  /** A pass leaves nothing for itself to edit, and nothing for the other pattern that was not
      there before. */
  lemma {:induction false} PassSettles(p: Pattern, q: Pattern, t: string)
    requires p == q || AllStill(q, t)
    ensures AllStill(q, Rewrite(p, t))
    decreases |t|
  {
    if t != [] {
      match EditHere(p, t)
      case None =>
        if p != q { StillTail(q, t, |t|, 1); }
        PassSettles(p, q, t[1..]);
        EditsPersist(p, q, t);
        assert EditHere(q, t).None? by { assert t[0..] == t; }
        hide EditHere;
        var u := [t[0]] + Rewrite(p, t[1..]);
        assert u[0..] == u;
        StillJoins(q, [t[0]], Rewrite(p, t[1..]));
      case Some(e) =>
        if p != q { StillTail(q, t, |t|, e); }
        PassSettles(p, q, t[e..]);
        ReplacementStill(p, q, t, Rewrite(p, t[e..]));
        hide EditHere, Replacement;
        StillJoins(q, Replacement(p, t), Rewrite(p, t[e..]));
    }
  }

  /** After the repair no marker and no file link holds an absolute path. */
  lemma NoAbsolutePathRemains(t: string)
    ensures AllStill(Marker, RewriteAll(t)) && AllStill(FileLink, RewriteAll(t))
  {
    PassSettles(Marker, Marker, t);
    PassSettles(FileLink, FileLink, Rewrite(Marker, t));
    PassSettles(FileLink, Marker, Rewrite(Marker, t));
  }

  lemma StillIsUnchanged(p: Pattern, t: string)
    requires AllStill(p, t)
    ensures Rewrite(p, t) == t
  {
    CopyStill(p, t, |t|);
    hide EditHere;
    assert t[..|t|] == t && t[|t|..] == [];
  }

  /** The repair changes a text exactly when it holds an absolute marker or file link. */
  lemma UnchangedIffClean(t: string)
    ensures RewriteAll(t) == t <==> AllStill(Marker, t) && AllStill(FileLink, t)
  {
    NoAbsolutePathRemains(t);
    if AllStill(Marker, t) && AllStill(FileLink, t) {
      StillIsUnchanged(Marker, t);
      StillIsUnchanged(FileLink, t);
    }
  }

  /** Repairing a repaired text changes nothing. */
  lemma RepairIsProjection(t: string)
    ensures RewriteAll(RewriteAll(t)) == RewriteAll(t)
  {
    NoAbsolutePathRemains(t);
    UnchangedIffClean(RewriteAll(t));
  }

  // ---- Which positions survive both passes -----------------------------------------------------

  lemma {:induction false} UncutSkips(q: Pattern, t: string, n: nat, pos: nat)
    requires n <= pos <= |t| && Still(q, t, n)
    ensures Uncut(q, t, pos) <==> Uncut(q, t[n..], pos - n)
    decreases n
  {
    hide EditHere;
    assert t[0..] == t;
    if n > 0 {
      StillTail(q, t, n, 1);
      UncutSkips(q, t[1..], n - 1, pos - 1);
      assert t[1..][n - 1..] == t[n..];
    }
  }

  /** An edit of one pattern is still for the other. */
  lemma EditStillForOther(p: Pattern, q: Pattern, t: string)
    requires p != q && EditHere(p, t).Some?
    ensures Still(q, t, EditHere(p, t).value)
  {
    MatchStarts(p, t);
    assert t[0] == Prefix(p)[0] != Prefix(q)[0];
    assert !(Prefix(q) <= t);
    UneditedMatchIsStill(q, p, t);
  }

  lemma NewPosSkips(p: Pattern, t: string, n: nat, pos: nat)
    requires n <= pos <= |t| && Still(p, t, n)
    ensures NewPos(p, t, pos) == n + NewPos(p, t[n..], pos - n)
  {
    hide EditHere, Replacement;
    assert Still(p, t[..pos], n) by {
      forall k | 0 <= k < n ensures EditHere(p, t[..pos][k..]).None? {
        assert t[..pos][k..] == t[k..][..pos - k];
        EditIsLocal(p, t[k..], pos - k);
      }
    }
    CopyStill(p, t[..pos], n);
    assert t[..pos][n..] == t[n..][..pos - n];
  }

  lemma {:induction false} NewPosInBounds(p: Pattern, t: string, pos: nat)
    requires pos <= |t| && Uncut(p, t, pos)
    ensures NewPos(p, t, pos) <= |Rewrite(p, t)|
    ensures Rewrite(p, t)[..NewPos(p, t, pos)] == Rewrite(p, t[..pos])
    ensures Rewrite(p, t)[NewPos(p, t, pos)..] == Rewrite(p, t[pos..])
  {
    RewriteSplits(p, t, pos);
  }

  /** Moving an uncut position through one pass neither cuts nor heals it for the other. */
  lemma {:induction false} UncutPersists(p: Pattern, q: Pattern, t: string, pos: nat)
    requires p != q && pos <= |t| && Uncut(p, t, pos)
    ensures NewPos(p, t, pos) <= |Rewrite(p, t)|
    ensures Uncut(q, Rewrite(p, t), NewPos(p, t, pos)) <==> Uncut(q, t, pos)
    decreases |t|
  {
    hide EditHere, Replacement, Rewrite, NewPos;
    NewPosInBounds(p, t, pos);
    if pos == 0 {
      NewPosAtStart(p, t);
    } else if EditHere(p, t).Some? {
      var e := EditHere(p, t).value;
      UncutPersists(p, q, t[e..], pos - e);
      ReplacementStill(p, q, t, Rewrite(p, t[e..]));
      NewPosAfterEdit(p, t, pos);
      EditStillForOther(p, q, t);
      PersistsAfterEdit(p, q, t, e, pos);
    } else {
      EditsPersist(p, q, t);
      var e := if EditHere(q, t).Some? then EditHere(q, t).value else 1;
      CopiedFront(p, q, t, e);
      if pos < e {
        CutInFront(p, q, t, e, pos);
      } else {
        StillUncut(p, t, e, pos);
        UncutPersists(p, q, t[e..], pos - e);
        NewPosSkips(p, t, e, pos);
        assert Rewrite(p, t)[e..] == Rewrite(p, t[e..]);
        PersistsAfterCopy(q, t, Rewrite(p, t), e, pos, NewPos(p, t, pos));
      }
    }
  }

  lemma NewPosAtStart(p: Pattern, t: string)
    ensures NewPos(p, t, 0) == 0
  {}

  lemma CopiedFront(p: Pattern, q: Pattern, t: string, e: nat)
    requires t != [] && EditHere(p, t).None?
    requires e == if EditHere(q, t).Some? then EditHere(q, t).value else 1
    ensures Still(p, t, e) && Rewrite(p, t) == t[..e] + Rewrite(p, t[e..])
  {
    if EditHere(q, t).Some? {
      UneditedMatchIsStill(p, q, t);
    } else {
      assert t[0..] == t;
    }
    hide EditHere;
    CopyStill(p, t, e);
  }

  lemma CutInFront(p: Pattern, q: Pattern, t: string, e: nat, pos: nat)
    requires 0 < pos < e <= |t| && Still(p, t, e) && EditHere(q, t) == Some(e)
    requires EditHere(q, Rewrite(p, t)) == Some(e)
    ensures NewPos(p, t, pos) <= |Rewrite(p, t)|
    ensures Uncut(q, Rewrite(p, t), NewPos(p, t, pos)) <==> Uncut(q, t, pos)
  {
    hide EditHere;
    NewPosSkips(p, t, pos, pos);
    NewPosAtStart(p, t[pos..]);
  }

  lemma PersistsAfterCopy(q: Pattern, t: string, u: string, e: nat, pos: nat, moved: nat)
    requires t != [] && u != [] && EditHere(q, u) == EditHere(q, t)
    requires e == if EditHere(q, t).Some? then EditHere(q, t).value else 1
    requires e <= pos <= |t| && e <= moved <= |u|
    requires Uncut(q, u[e..], moved - e) <==> Uncut(q, t[e..], pos - e)
    ensures Uncut(q, u, moved) <==> Uncut(q, t, pos)
  {
    hide EditHere, Uncut;
    UncutStep(q, t, e, pos);
    UncutStep(q, u, e, moved);
  }

  lemma UncutStep(q: Pattern, t: string, e: nat, pos: nat)
    requires t != [] && e == if EditHere(q, t).Some? then EditHere(q, t).value else 1
    requires e <= pos <= |t|
    ensures Uncut(q, t, pos) <==> Uncut(q, t[e..], pos - e)
  {
    hide EditHere;
  }

  lemma StillUncut(p: Pattern, t: string, n: nat, pos: nat)
    requires n <= pos <= |t| && Still(p, t, n) && Uncut(p, t, pos)
    ensures Uncut(p, t[n..], pos - n)
  {
    UncutSkips(p, t, n, pos);
  }

  lemma PersistsAfterEdit(p: Pattern, q: Pattern, t: string, e: nat, pos: nat)
    requires EditHere(p, t) == Some(e) && e <= pos <= |t|
    requires Still(q, t, e)
    requires Still(q, Replacement(p, t) + Rewrite(p, t[e..]), |Replacement(p, t)|)
    requires NewPos(p, t[e..], pos - e) <= |Rewrite(p, t[e..])|
    requires NewPos(p, t, pos) == |Replacement(p, t)| + NewPos(p, t[e..], pos - e)
    requires Uncut(q, Rewrite(p, t[e..]), NewPos(p, t[e..], pos - e)) <==> Uncut(q, t[e..], pos - e)
    ensures NewPos(p, t, pos) <= |Rewrite(p, t)|
    ensures Uncut(q, Rewrite(p, t), NewPos(p, t, pos)) <==> Uncut(q, t, pos)
  {
    hide EditHere, Replacement;
    var r, u := Replacement(p, t), Rewrite(p, t[e..]);
    assert Rewrite(p, t) == r + u;
    hide Rewrite, NewPos;
    UncutSkips(q, r + u, |r|, |r| + NewPos(p, t[e..], pos - e));
    assert (r + u)[|r|..] == u;
    UncutSkips(q, t, e, pos);
  }

  /** No edit of either pattern, in the original text, has the position strictly inside it. */
  ghost predicate Survives(t: string, pos: nat)
    requires pos <= |t|
  {
    Uncut(Marker, t, pos) && Uncut(FileLink, t, pos)
  }

  /** Where a surviving position ends up. */
  ghost function FinalPos(t: string, pos: nat): nat
    requires pos <= |t|
  {
    |RewriteAll(t[..pos])|
  }

  /** A position uncut by the first pass is uncut by the second exactly when it survives, and
      then the two shifts compose to `FinalPos`. */
  lemma TwoShiftsCompose(t: string, pos: nat)
    requires pos <= |t| && Uncut(Marker, t, pos)
    ensures NewPos(Marker, t, pos) <= |Rewrite(Marker, t)|
    ensures Uncut(FileLink, Rewrite(Marker, t), NewPos(Marker, t, pos)) <==> Survives(t, pos)
    ensures NewPos(FileLink, Rewrite(Marker, t), NewPos(Marker, t, pos)) == FinalPos(t, pos)
  {
    UncutPersists(Marker, FileLink, t, pos);
    NewPosInBounds(Marker, t, pos);
  }

  /** Offset shifting commutes with the repair: a range whose ends survive becomes a non-empty
      range in bounds, over the repair of exactly the text it covered. */
  lemma RepairCommutes(t: string, start: nat, end: nat)
    requires start < end <= |t| && Survives(t, start) && Survives(t, end)
    ensures FinalPos(t, start) < FinalPos(t, end) <= |RewriteAll(t)|
    ensures RewriteAll(t)[FinalPos(t, start)..FinalPos(t, end)] == RewriteAll(t[start..end])
  {
    TwoShiftsCompose(t, start);
    TwoShiftsCompose(t, end);
    RangeCommutes(Marker, t, start, end);
    RangeCommutes(FileLink, Rewrite(Marker, t), NewPos(Marker, t, start), NewPos(Marker, t, end));
  }
}
