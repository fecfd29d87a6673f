/** Where a comment on a document belongs: the one chunk of its source in which its question stands. */
module CommentAnchor {
  import opened Options
  import opened WhiteSpace

  // ---- Text ------------------------------------------------------------------------------------------

  const ANCHOR_CHARS := 80
  const LABEL := "**Комментарий рецензента"
  const MARK := ":** "

  /** The first place at or after `i` where `t` stands in `s`. */
  function Find(s: string, t: string, i: nat): Option<nat>
    decreases |s| - i
  {
    if i + |t| > |s| then None
    else if s[i..i + |t|] == t then Some(i)
    else Find(s, t, i + 1)
  }

  predicate StandsAt(s: string, t: string, i: nat) { i + |t| <= |s| && s[i..i + |t|] == t }

  lemma {:induction false} FindFinds(s: string, t: string, i: nat)
    ensures match Find(s, t, i)
            case Some(j) => i <= j && StandsAt(s, t, j) && forall k: nat :: i <= k < j ==> !StandsAt(s, t, k)
            case None => forall k: nat :: i <= k ==> !StandsAt(s, t, k)
    decreases |s| - i
  {
    if i + |t| <= |s| && s[i..i + |t|] != t { FindFinds(s, t, i + 1); }
  }

  /** The first line that starts with a comment's label, from its text on. */
  function QuestionOf(content: string): string
    decreases |content|
  {
    var end := Find(content, "\n", 0);
    var line := Strip(if end.Some? && end.value < |content| then content[..end.value] else content);
    if LABEL <= line then
      var mark := Find(line, MARK, 0);
      if mark.Some? && mark.value + |MARK| <= |line| then line[mark.value + |MARK|..] else ""
    else if end.Some? && end.value < |content| then QuestionOf(content[end.value + 1..])
    else ""
  }

  /** The question is within one line, so its first line is all of it. */
  function Anchor(content: string): string {
    var q := Strip(QuestionOf(content));
    if |q| > ANCHOR_CHARS then q[..ANCHOR_CHARS] else q
  }

  // ---- Chunks and comments ------------------------------------------------------------------------------------

  datatype Chunk = Chunk(content: string, source: Option<string>, index: int)

  datatype Concept = Concept(title: string, kind: string, content: string, tags: seq<string>,
                             relations: seq<string>)

  datatype Comment = Comment(source: string, concept: Concept)

  function SourceOf(chunk: Chunk): string {
    if chunk.source.None? || chunk.source.value == "" then "root" else chunk.source.value
  }

  // ---- Anchoring ---------------------------------------------------------------------------------------

  datatype Place = Ambiguous | At(chunks: seq<Chunk>)

  /** The chunks of a source in which the anchor stands once, unless it stands twice in one. */
  function Matches(chunks: seq<Chunk>, source: string, anchor: string): Place {
    if chunks == [] then At([])
    else
      var rest := Matches(chunks[1..], source, anchor);
      if SourceOf(chunks[0]) != source || anchor == "" then rest
      else
        var start := Find(chunks[0].content, anchor, 0);
        if start.None? then rest
        else if Find(chunks[0].content, anchor, start.value + 1).Some? || rest.Ambiguous? then Ambiguous
        else At([chunks[0]] + rest.chunks)
  }

  function ChunkOf(chunks: seq<Chunk>, comment: Comment): Option<Chunk> {
    var place := Matches(chunks, comment.source, Anchor(comment.concept.content));
    if place.At? && |place.chunks| == 1 then Some(place.chunks[0]) else None
  }

  /** The places in a source where the anchor stands: chunk number and position. */
  ghost predicate Stands(chunks: seq<Chunk>, source: string, anchor: string, c: nat, i: nat) {
    c < |chunks| && SourceOf(chunks[c]) == source && StandsAt(chunks[c].content, anchor, i)
  }

  ghost predicate StandsOnce(chunks: seq<Chunk>, source: string, anchor: string, c: nat) {
    exists i: nat :: Stands(chunks, source, anchor, c, i)
      && forall d: nat, k: nat :: Stands(chunks, source, anchor, d, k) ==> d == c && k == i
  }

  lemma StandsShift(chunks: seq<Chunk>, source: string, anchor: string)
    requires chunks != []
    ensures forall c: nat, i: nat ::
      Stands(chunks, source, anchor, c + 1, i) == Stands(chunks[1..], source, anchor, c, i)
  {}

  lemma OnceShift(chunks: seq<Chunk>, source: string, anchor: string)
    requires chunks != [] && forall i: nat :: !Stands(chunks, source, anchor, 0, i)
    ensures forall c: nat :: StandsOnce(chunks, source, anchor, c + 1) == StandsOnce(chunks[1..], source, anchor, c)
    ensures !StandsOnce(chunks, source, anchor, 0)
  {
    StandsShift(chunks, source, anchor);
    hide Stands;
    var tail := chunks[1..];
    forall c: nat ensures StandsOnce(chunks, source, anchor, c + 1) == StandsOnce(tail, source, anchor, c) {
      if StandsOnce(tail, source, anchor, c) {
        var i: nat :| Stands(tail, source, anchor, c, i)
          && forall d: nat, k: nat :: Stands(tail, source, anchor, d, k) ==> d == c && k == i;
        assert Stands(chunks, source, anchor, c + 1, i);
        forall d: nat, k: nat | Stands(chunks, source, anchor, d, k) ensures d == c + 1 && k == i {
          assert d != 0;
          assert Stands(tail, source, anchor, d - 1, k) by { assert d == (d - 1) + 1; }
        }
      }
      if StandsOnce(chunks, source, anchor, c + 1) {
        var i: nat :| Stands(chunks, source, anchor, c + 1, i)
          && forall d: nat, k: nat :: Stands(chunks, source, anchor, d, k) ==> d == c + 1 && k == i;
        assert Stands(tail, source, anchor, c, i);
        forall d: nat, k: nat | Stands(tail, source, anchor, d, k) ensures d == c && k == i {
          assert Stands(chunks, source, anchor, d + 1, k);
        }
      }
    }
  }

  ghost predicate Nowhere(chunks: seq<Chunk>, source: string, anchor: string) {
    forall c: nat, i: nat :: !Stands(chunks, source, anchor, c, i)
  }

  /** Two places rule out a unique one. */
  lemma TwiceIsNotOnce(chunks: seq<Chunk>, source: string, anchor: string, c: nat, i: nat, d: nat, k: nat)
    requires Stands(chunks, source, anchor, c, i) && Stands(chunks, source, anchor, d, k) && (c != d || i != k)
    ensures forall e: nat :: !StandsOnce(chunks, source, anchor, e)
  {
    hide Stands;
  }

  lemma HeadHasNone(chunks: seq<Chunk>, source: string, anchor: string)
    requires chunks != [] && forall i: nat :: !Stands(chunks, source, anchor, 0, i)
    ensures Nowhere(chunks, source, anchor) == Nowhere(chunks[1..], source, anchor)
    ensures forall c: nat :: StandsOnce(chunks, source, anchor, c) ==>
              c > 0 && StandsOnce(chunks[1..], source, anchor, c - 1)
    ensures forall c: nat :: StandsOnce(chunks[1..], source, anchor, c) ==> StandsOnce(chunks, source, anchor, c + 1)
  {
    StandsShift(chunks, source, anchor);
    OnceShift(chunks, source, anchor);
    hide Stands, StandsOnce;
    forall c: nat, i: nat | Nowhere(chunks[1..], source, anchor) ensures !Stands(chunks, source, anchor, c, i) {
      if c > 0 { assert !Stands(chunks[1..], source, anchor, c - 1, i); assert c == (c - 1) + 1; }
    }
    forall c: nat, i: nat | Nowhere(chunks, source, anchor) ensures !Stands(chunks[1..], source, anchor, c, i) {
      assert !Stands(chunks, source, anchor, c + 1, i);
    }
    forall c: nat | StandsOnce(chunks, source, anchor, c)
      ensures c > 0 && StandsOnce(chunks[1..], source, anchor, c - 1)
    {
      assert c == (c - 1) + 1;
    }
  }

  lemma HeadHasOne(chunks: seq<Chunk>, source: string, anchor: string, i: nat)
    requires chunks != [] && Stands(chunks, source, anchor, 0, i)
    requires forall k: nat :: Stands(chunks, source, anchor, 0, k) ==> k == i
    ensures !Nowhere(chunks, source, anchor)
    ensures Nowhere(chunks[1..], source, anchor) ==> StandsOnce(chunks, source, anchor, 0)
    ensures forall c: nat :: StandsOnce(chunks, source, anchor, c) ==> c == 0 && Nowhere(chunks[1..], source, anchor)
  {
    StandsShift(chunks, source, anchor);
    hide Stands;
    var tail := chunks[1..];
    if Nowhere(tail, source, anchor) {
      forall d: nat, k: nat | d > 0 ensures !Stands(chunks, source, anchor, d, k) {
        assert !Stands(tail, source, anchor, d - 1, k);
        assert d == (d - 1) + 1;
      }
    } else {
      var c: nat, k: nat :| Stands(tail, source, anchor, c, k);
      assert Stands(chunks, source, anchor, c + 1, k);
      TwiceIsNotOnce(chunks, source, anchor, 0, i, c + 1, k);
    }
  }

  /** A comment is anchored exactly when its anchor stands once in all the chunks of its source,
      and then in that chunk. */
  ghost predicate Anchored(chunks: seq<Chunk>, source: string, anchor: string) {
    var m := Matches(chunks, source, anchor);
    && (m == At([]) <==> Nowhere(chunks, source, anchor))
    && (m.At? && |m.chunks| == 1 <==> exists c: nat :: StandsOnce(chunks, source, anchor, c))
    && (forall c: nat :: StandsOnce(chunks, source, anchor, c) ==>
          c < |chunks| && Matches(chunks, source, anchor) == At([chunks[c]]))
  }

  lemma {:induction false} AnchoredOnce(chunks: seq<Chunk>, source: string, anchor: string)
    requires anchor != ""
    ensures Anchored(chunks, source, anchor)
  {
    if chunks != [] {
      AnchoredOnce(chunks[1..], source, anchor);
      HeadPlaces(chunks, source, anchor);
      hide Anchored, StandsOnce, Nowhere, Find, Stands;
      var start := Find(chunks[0].content, anchor, 0);
      if SourceOf(chunks[0]) != source || start.None? {
        AbsentHead(chunks, source, anchor);
      } else {
        var again := Find(chunks[0].content, anchor, start.value + 1);
        if again.Some? {
          TwiceHead(chunks, source, anchor, start.value, again.value);
        } else {
          OnceHead(chunks, source, anchor, start.value);
        }
      }
    }
  }

  /** What the two searches in the first chunk find. */
  lemma HeadPlaces(chunks: seq<Chunk>, source: string, anchor: string)
    requires chunks != []
    ensures var start := Find(chunks[0].content, anchor, 0);
      if SourceOf(chunks[0]) != source || start.None? then
        forall i: nat :: !Stands(chunks, source, anchor, 0, i)
      else
        var again := Find(chunks[0].content, anchor, start.value + 1);
        && Stands(chunks, source, anchor, 0, start.value)
        && (if again.Some? then again.value != start.value && Stands(chunks, source, anchor, 0, again.value)
            else forall k: nat :: Stands(chunks, source, anchor, 0, k) ==> k == start.value)
  {
    var start := Find(chunks[0].content, anchor, 0);
    FindFinds(chunks[0].content, anchor, 0);
    if start.Some? { FindFinds(chunks[0].content, anchor, start.value + 1); }
    hide Find, StandsAt;
  }

  lemma AbsentHead(chunks: seq<Chunk>, source: string, anchor: string)
    requires chunks != [] && Anchored(chunks[1..], source, anchor)
    requires forall i: nat :: !Stands(chunks, source, anchor, 0, i)
    requires Matches(chunks, source, anchor) == Matches(chunks[1..], source, anchor)
    ensures Anchored(chunks, source, anchor)
  {
    hide Matches, StandsOnce, Nowhere, Stands;
    HeadHasNone(chunks, source, anchor);
    forall c: nat | StandsOnce(chunks, source, anchor, c)
      ensures c < |chunks| && Matches(chunks, source, anchor) == At([chunks[c]])
    {
      assert StandsOnce(chunks[1..], source, anchor, c - 1);
      assert chunks[1..][c - 1] == chunks[c];
    }
  }

  lemma TwiceHead(chunks: seq<Chunk>, source: string, anchor: string, i: nat, k: nat)
    requires i != k && Stands(chunks, source, anchor, 0, i) && Stands(chunks, source, anchor, 0, k)
    requires Matches(chunks, source, anchor).Ambiguous?
    ensures Anchored(chunks, source, anchor)
  {
    hide Matches, Stands;
    TwiceIsNotOnce(chunks, source, anchor, 0, i, 0, k);
    hide StandsOnce;
  }

  lemma OnceHead(chunks: seq<Chunk>, source: string, anchor: string, i: nat)
    requires chunks != [] && Anchored(chunks[1..], source, anchor)
    requires Stands(chunks, source, anchor, 0, i)
    requires forall k: nat :: Stands(chunks, source, anchor, 0, k) ==> k == i
    requires var rest := Matches(chunks[1..], source, anchor);
      Matches(chunks, source, anchor) == if rest.Ambiguous? then Ambiguous else At([chunks[0]] + rest.chunks)
    ensures Anchored(chunks, source, anchor)
  {
    hide Matches, StandsOnce, Nowhere, Stands;
    HeadHasOne(chunks, source, anchor, i);
  }
}
