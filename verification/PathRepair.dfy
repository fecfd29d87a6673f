/** The repair of one document snapshot: chunk and concept texts are rewritten in place, and
    the evidence spans of concepts on changed chunks are moved to the new chunk text. */
module PathRepair {
  import opened Options
  import opened PathScanner
  import opened PathRewrite
  import opened PathFixpoint

  /** An ideal text digest. */
  datatype Digest = DigestOf(text: string) | OtherDigest(id: nat)

  /** A stored span as read back: one that validates, or anything else. */
  datatype StoredSpan = Span(start: int, end: int, hash: Digest) | Malformed

  datatype Chunk = Chunk(index: int, source: Option<string>, content: string)

  datatype Concept = Concept(slug: string, chunk: Option<int>, source: Option<string>,
                             content: string, spans: Option<seq<StoredSpan>>)

  // ---- One text and its spans ------------------------------------------------------------------

  /** A span the code takes up: well formed, in bounds, and of this very text. */
  predicate Current(text: string, s: StoredSpan) {
    s.Span? && s.hash == DigestOf(text) && 0 <= s.start < s.end <= |text|
  }

  ghost predicate Kept(text: string, s: StoredSpan) {
    Current(text, s) && Survives(text, s.start) && Survives(text, s.end)
  }

  ghost function Moved(text: string, s: StoredSpan): StoredSpan
    requires Kept(text, s)
  {
    Span(FinalPos(text, s.start), FinalPos(text, s.end), DigestOf(RewriteAll(text)))
  }

  /** The spans of the repaired text, in order: each current span whose ends no edit of the
      original text cuts, moved to where its text went. */
  ghost function MovedSpans(text: string, stored: seq<StoredSpan>): seq<StoredSpan> {
    if stored == [] then [] else
      (if Kept(text, stored[0]) then [Moved(text, stored[0])] else [])
      + MovedSpans(text, stored[1..])
  }

  type Range = (int, int)

  ghost predicate RangesOf(text: string, ranges: seq<Range>) {
    forall r :: r in ranges ==> 0 <= r.0 < r.1 <= |text|
  }

  /** The ranges one pass keeps, moved. */
  ghost function PassRanges(p: Pattern, text: string, ranges: seq<Range>): seq<Range>
    requires RangesOf(text, ranges)
  {
    if ranges == [] then [] else PassRange(p, text, ranges[0]) + PassRanges(p, text, ranges[1..])
  }

  ghost function PassRange(p: Pattern, text: string, r: Range): seq<Range>
    requires 0 <= r.0 < r.1 <= |text|
  {
    if Uncut(p, text, r.0) && Uncut(p, text, r.1) then [(NewPos(p, text, r.0), NewPos(p, text, r.1))] else []
  }

  lemma PassRangesOne(p: Pattern, text: string, r: Range)
    requires 0 <= r.0 < r.1 <= |text|
    ensures PassRanges(p, text, [r]) == PassRange(p, text, r)
  {
    hide PassRange;
    assert [r][1..] == [];
  }

  lemma {:induction false} PassRangesJoin(p: Pattern, text: string, a: seq<Range>, b: seq<Range>)
    requires RangesOf(text, a) && RangesOf(text, b)
    ensures RangesOf(text, a + b)
    ensures PassRanges(p, text, a + b) == PassRanges(p, text, a) + PassRanges(p, text, b)
  {
    hide PassRange;
    if a == [] {
      assert a + b == b;
    } else {
      assert (a + b)[0] == a[0] && (a + b)[1..] == a[1..] + b;
      PassRangesJoin(p, text, a[1..], b);
    }
  }

  lemma {:induction false} PassKeepsRanges(p: Pattern, text: string, ranges: seq<Range>)
    requires RangesOf(text, ranges)
    ensures RangesOf(Rewrite(p, text), PassRanges(p, text, ranges))
  {
    hide PassRange, Rewrite;
    if ranges != [] {
      PassKeepsRanges(p, text, ranges[1..]);
      PassRangeKept(p, text, ranges[0]);
    }
  }

  lemma PassRangeKept(p: Pattern, text: string, r: Range)
    requires 0 <= r.0 < r.1 <= |text|
    ensures RangesOf(Rewrite(p, text), PassRange(p, text, r))
  {
    hide Uncut, NewPos, Rewrite;
    if Uncut(p, text, r.0) && Uncut(p, text, r.1) { RangeCommutes(p, text, r.0, r.1); }
  }

  /** What is still to do at a position of the scan, joined to what is done. */
  ghost predicate Pending(p: Pattern, text: string, i: nat, out: string, edits: seq<Edit>)
    requires i <= |text|
  {
    && Substitute(p, text) == out + Substitute(p, text[i..])
    && EditList(p, text, 0) == edits + EditList(p, text[i..], i)
  }

  lemma PendingAtStart(p: Pattern, text: string)
    ensures Pending(p, text, 0, [], [])
  {
    hide Substitute, EditList;
    assert text[0..] == text;
  }

  lemma PendingAtEnd(p: Pattern, text: string, out: string, edits: seq<Edit>)
    requires Pending(p, text, |text|, out, edits)
    ensures out == Substitute(p, text) && edits == EditList(p, text, 0)
  {
    assert text[|text|..] == [];
  }

  lemma PendingStep(p: Pattern, text: string, i: nat, out: string, edits: seq<Edit>,
                    e: nat, piece: string, edit: seq<Edit>)
    requires i + e <= |text| && Pending(p, text, i, out, edits)
    requires Substitute(p, text[i..]) == piece + Substitute(p, text[i..][e..])
    requires EditList(p, text[i..], i) == edit + EditList(p, text[i..][e..], i + e)
    ensures Pending(p, text, i + e, out + piece, edits + edit)
  {
    hide Substitute, EditList;
    assert text[i..][e..] == text[i + e..];
  }

  /** `pattern.sub(replace, text)`, recording an edit for every replacement. */
  method SubstituteRecording(p: Pattern, text: string) returns (out: string, edits: seq<Edit>)
    ensures out == Substitute(p, text)
    ensures edits == EditList(p, text, 0)
  {
    hide MatchHere, EditHere, Replacement, Substitute, EditList, Pending;
    var i := 0;
    out, edits := [], [];
    PendingAtStart(p, text);
    while i < |text|
      invariant 0 <= i <= |text|
      invariant Pending(p, text, i, out, edits)
    {
      var here := text[i..];
      EditIsMatch(p, here);
      match MatchHere(p, here) {
        case None =>
          NoMatchStep(p, here, i);
          PendingStep(p, text, i, out, edits, 1, [text[i]], []);
          assert edits + [] == edits;
          out := out + [text[i]];
          i := i + 1;
        case Some(e) =>
          if EditHere(p, here).Some? {
            var replacement := Replacement(p, here);
            EditStep(p, here, e, i);
            PendingStep(p, text, i, out, edits, e, replacement, [Edit(i, i + e, |replacement| - e)]);
            edits := edits + [Edit(i, i + e, |replacement| - e)];
            out := out + replacement;
          } else {
            UneditedStep(p, here, e, i);
            PendingStep(p, text, i, out, edits, e, here[..e], []);
            assert edits + [] == edits;
            out := out + here[..e];
          }
          i := i + e;
      }
    }
    PendingAtEnd(p, text, out, edits);
  }

  lemma EditIsMatch(p: Pattern, t: string)
    ensures EditHere(p, t).Some? ==> MatchHere(p, t) == EditHere(p, t)
  {}

  lemma NoMatchStep(p: Pattern, t: string, base: int)
    requires t != [] && MatchHere(p, t).None?
    ensures Substitute(p, t) == [t[0]] + Substitute(p, t[1..])
    ensures EditList(p, t, base) == [] + EditList(p, t[1..], base + 1)
  {}

  lemma EditStep(p: Pattern, t: string, e: nat, base: int)
    requires EditHere(p, t).Some? && MatchHere(p, t) == Some(e)
    ensures Substitute(p, t) == Replacement(p, t) + Substitute(p, t[e..])
    ensures EditList(p, t, base)
         == [Edit(base, base + e, |Replacement(p, t)| - e)] + EditList(p, t[e..], base + e)
  {
    EditIsMatch(p, t);
    hide EditHere, MatchHere, Replacement;
  }

  lemma {:induction false} EditListSkips(p: Pattern, t: string, n: nat, base: int)
    requires n <= |t| && Still(p, t, n)
    ensures EditList(p, t, base) == EditList(p, t[n..], base + n)
    decreases n
  {
    hide EditHere, Replacement;
    assert t[0..] == t;
    if n > 0 {
      StillTail(p, t, n, 1);
      EditListSkips(p, t[1..], n - 1, base + 1);
      assert t[1..][n - 1..] == t[n..];
    }
  }

  lemma UneditedStep(p: Pattern, t: string, e: nat, base: int)
    requires t != [] && MatchHere(p, t) == Some(e) && EditHere(p, t).None?
    ensures Substitute(p, t) == t[..e] + Substitute(p, t[e..])
    ensures EditList(p, t, base) == [] + EditList(p, t[e..], base + e)
  {
    UneditedMatchIsStill(p, p, t);
    EditListSkips(p, t, e, base);
  }

  /** What the recorded edits say about the two ends of a range. */
  lemma EndsListed(p: Pattern, text: string, start: nat, end: nat)
    requires start <= |text| && end <= |text|
    ensures var edits := EditList(p, text, 0);
      && (Cuts(edits, start) <==> !Uncut(p, text, start))
      && (Cuts(edits, end) <==> !Uncut(p, text, end))
      && (Uncut(p, text, start) ==> start + DeltaBefore(edits, start) == NewPos(p, text, start))
      && (Uncut(p, text, end) ==> end + DeltaBefore(edits, end) == NewPos(p, text, end))
  {
    hide EditList, Cuts, Uncut, DeltaBefore, NewPos;
    CutsAreListed(p, text, 0, start);
    CutsAreListed(p, text, 0, end);
    if Uncut(p, text, start) { DeltasAreShift(p, text, 0, start); }
    if Uncut(p, text, end) { DeltasAreShift(p, text, 0, end); }
  }

  /** One pass over the text and the ranges still alive. */
  method OnePass(p: Pattern, text: string, ranges: seq<Range>)
    returns (out: string, shifted: seq<Range>)
    requires RangesOf(text, ranges)
    ensures out == Rewrite(p, text)
    ensures shifted == PassRanges(p, text, ranges)
  {
    var edits;
    out, edits := SubstituteRecording(p, text);
    SubstituteIsRewrite(p, text);
    shifted := [];
    hide Rewrite, EditList, EditHere, Cuts, Uncut, DeltaBefore, NewPos, PassRanges;
    PassRangesOfNone(p, text);
    assert ranges[..0] == [];
    for i := 0 to |ranges|
      invariant RangesOf(text, ranges[..i])
      invariant shifted == PassRanges(p, text, ranges[..i])
    {
      var start, end := ranges[i].0, ranges[i].1;
      assert ranges[..i + 1] == ranges[..i] + [ranges[i]];
      PassRangesJoin(p, text, ranges[..i], [ranges[i]]);
      PassRangesOne(p, text, ranges[i]);
      EndsListed(p, text, start, end);
      if !Cuts(edits, start) && !Cuts(edits, end) {
        shifted := shifted + [(start + DeltaBefore(edits, start), end + DeltaBefore(edits, end))];
      }
    }
    assert ranges[..|ranges|] == ranges;
  }

  lemma PassRangesOfNone(p: Pattern, text: string)
    ensures PassRanges(p, text, []) == []
  {}

  /** The current spans of a text, as ranges. */
  ghost function CurrentRanges(text: string, stored: seq<StoredSpan>): (r: seq<Range>)
    ensures RangesOf(text, r)
  {
    if stored == [] then [] else
      (if Current(text, stored[0]) then [(stored[0].start, stored[0].end)] else [])
      + CurrentRanges(text, stored[1..])
  }

  ghost function SpansAt(text: string, ranges: seq<Range>): seq<StoredSpan> {
    if ranges == [] then [] else
      [Span(ranges[0].0, ranges[0].1, DigestOf(text))] + SpansAt(text, ranges[1..])
  }

  /** Both passes over one range. */
  lemma OneRangeThrough(text: string, r: Range)
    requires 0 <= r.0 < r.1 <= |text|
    ensures var mid := Rewrite(Marker, text);
      var one := PassRanges(Marker, text, [r]);
      && RangesOf(mid, one)
      && PassRanges(FileLink, mid, one) ==
           if Survives(text, r.0) && Survives(text, r.1)
           then [(FinalPos(text, r.0), FinalPos(text, r.1))] else []
  {
    PassRangesOne(Marker, text, r);
    PassRangeKept(Marker, text, r);
    hide Uncut, NewPos, Rewrite, FinalPos, RangesOf;
    if Uncut(Marker, text, r.0) && Uncut(Marker, text, r.1) {
      assert PassRange(Marker, text, r) == [(NewPos(Marker, text, r.0), NewPos(Marker, text, r.1))];
      hide PassRanges, PassRange, Survives;
      SecondPass(text, r);
    } else {
      assert PassRange(Marker, text, r) == [] && !(Survives(text, r.0) && Survives(text, r.1));
    }
  }

  lemma SecondPass(text: string, r: Range)
    requires 0 <= r.0 < r.1 <= |text| && Uncut(Marker, text, r.0) && Uncut(Marker, text, r.1)
    requires RangesOf(Rewrite(Marker, text), [(NewPos(Marker, text, r.0), NewPos(Marker, text, r.1))])
    ensures PassRanges(FileLink, Rewrite(Marker, text), [(NewPos(Marker, text, r.0), NewPos(Marker, text, r.1))])
         == if Survives(text, r.0) && Survives(text, r.1) then [(FinalPos(text, r.0), FinalPos(text, r.1))] else []
  {
    TwoShiftsCompose(text, r.0);
    TwoShiftsCompose(text, r.1);
    hide Uncut, NewPos, Rewrite, FinalPos, Survives, PassRanges, RewriteAll;
    var q := (NewPos(Marker, text, r.0), NewPos(Marker, text, r.1));
    assert q in [q];
    PassRangesOne(FileLink, Rewrite(Marker, text), q);
  }

  lemma SpansAtSingle(text: string, r: Range)
    ensures SpansAt(text, [r]) == [Span(r.0, r.1, DigestOf(text))]
  {
    assert [r][1..] == [];
  }

  lemma {:induction false} SpansAtJoin(text: string, a: seq<Range>, b: seq<Range>)
    ensures SpansAt(text, a + b) == SpansAt(text, a) + SpansAt(text, b)
  {
    if a == [] {
      assert a + b == b;
    } else {
      assert (a + b)[0] == a[0] && (a + b)[1..] == a[1..] + b;
      SpansAtJoin(text, a[1..], b);
    }
  }

  /** Ranges of a text after both passes, as spans of the repaired text. */
  ghost function Through(text: string, ranges: seq<Range>): seq<StoredSpan>
    requires RangesOf(text, ranges)
  {
    PassKeepsRanges(Marker, text, ranges);
    SpansAt(RewriteAll(text),
            PassRanges(FileLink, Rewrite(Marker, text), PassRanges(Marker, text, ranges)))
  }

  lemma ThroughJoins(text: string, a: seq<Range>, b: seq<Range>)
    requires RangesOf(text, a) && RangesOf(text, b)
    ensures RangesOf(text, a + b)
    ensures Through(text, a + b) == Through(text, a) + Through(text, b)
  {
    var mid := Rewrite(Marker, text);
    PassKeepsRanges(Marker, text, a);
    PassKeepsRanges(Marker, text, b);
    hide PassRanges, Rewrite, SpansAt;
    var one, two := PassRanges(Marker, text, a), PassRanges(Marker, text, b);
    PassRangesJoin(Marker, text, a, b);
    PassRangesJoin(FileLink, mid, one, two);
    SpansAtJoin(RewriteAll(text), PassRanges(FileLink, mid, one), PassRanges(FileLink, mid, two));
  }

  lemma OneSpanThrough(text: string, s: StoredSpan)
    requires Current(text, s)
    ensures Through(text, [(s.start, s.end)]) == if Kept(text, s) then [Moved(text, s)] else []
  {
    OneRangeThrough(text, (s.start, s.end));
    SpansAtSingle(RewriteAll(text), (FinalPos(text, s.start), FinalPos(text, s.end)));
    hide Uncut, NewPos, FinalPos, Rewrite, PassRanges, Survives;
  }

  /** The two passes of shifting compute the declarative `MovedSpans`. */
  lemma {:induction false} PassesMoveSpans(text: string, stored: seq<StoredSpan>)
    ensures Through(text, CurrentRanges(text, stored)) == MovedSpans(text, stored)
  {
    if stored == [] {
      ThroughNone(text);
    } else {
      hide Through, MovedSpans, CurrentRanges;
      PassesMoveSpans(text, stored[1..]);
      MoveStep(text, stored);
    }
  }

  lemma MoveStep(text: string, stored: seq<StoredSpan>)
    requires stored != []
    requires Through(text, CurrentRanges(text, stored[1..])) == MovedSpans(text, stored[1..])
    ensures Through(text, CurrentRanges(text, stored)) == MovedSpans(text, stored)
  {
    var rest := CurrentRanges(text, stored[1..]);
    if Current(text, stored[0]) {
      var r := (stored[0].start, stored[0].end);
      assert CurrentRanges(text, stored) == [r] + rest;
      OneSpanThrough(text, stored[0]);
      ThroughJoins(text, [r], rest);
      hide Through, Kept, Moved, CurrentRanges, Current;
    } else {
      assert CurrentRanges(text, stored) == rest;
      hide Through, Moved, CurrentRanges;
    }
  }

  lemma ThroughNone(text: string)
    ensures Through(text, []) == []
  {}

  /** The rewritten text and its spans: the code's two passes, proved to be `RewriteAll` and
      `MovedSpans`. */
  method RewriteWithSpans(text: string, stored: seq<StoredSpan>)
    returns (out: string, spans: seq<StoredSpan>)
    ensures out == RewriteAll(text)
    ensures spans == MovedSpans(text, stored)
  {
    hide MovedSpans, PassRanges, Rewrite;
    var ranges: seq<Range> := [];
    assert stored[..0] == [];
    for i := 0 to |stored|
      invariant ranges == CurrentRanges(text, stored[..i])
    {
      assert stored[..i + 1] == stored[..i] + [stored[i]];
      CurrentRangesSnoc(text, stored[..i], stored[i]);
      if Current(text, stored[i]) {
        ranges := ranges + [(stored[i].start, stored[i].end)];
      }
    }
    assert stored[..|stored|] == stored;
    PassesMoveSpans(text, stored);
    out, ranges := OnePass(Marker, text, ranges);
    PassKeepsRanges(Marker, text, CurrentRanges(text, stored));
    out, ranges := OnePass(FileLink, out, ranges);
    ghost var all := ranges;
    PassKeepsRanges(FileLink, Rewrite(Marker, text),
                    PassRanges(Marker, text, CurrentRanges(text, stored)));
    spans := [];
    assert ranges[..0] == [];
    for i := 0 to |ranges|
      invariant spans == SpansAt(out, ranges[..i])
    {
      assert ranges[..i + 1] == ranges[..i] + [ranges[i]];
      SpansAtJoin(out, ranges[..i], [ranges[i]]);
      SpansAtSingle(out, ranges[i]);
      assert ranges[i] in all;
      if 0 <= ranges[i].0 < ranges[i].1 <= |out| {
        spans := spans + [Span(ranges[i].0, ranges[i].1, DigestOf(out))];
      }
    }
    assert ranges[..|ranges|] == ranges;
  }

  lemma {:induction false} CurrentRangesSnoc(text: string, stored: seq<StoredSpan>, s: StoredSpan)
    ensures CurrentRanges(text, stored + [s]) == CurrentRanges(text, stored) +
              if Current(text, s) then [(s.start, s.end)] else []
  {
    hide Current, RangesOf;
    if stored == [] {
      CurrentRangesOne(text, s);
      assert stored + [s] == [s];
    } else {
      assert (stored + [s])[0] == stored[0] && (stored + [s])[1..] == stored[1..] + [s];
      CurrentRangesSnoc(text, stored[1..], s);
    }
  }

  lemma CurrentRangesOne(text: string, s: StoredSpan)
    ensures CurrentRanges(text, [s]) == if Current(text, s) then [(s.start, s.end)] else []
  {
    hide Current;
    assert [s][1..] == [];
  }
}
