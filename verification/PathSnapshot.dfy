/** The in-place repair of a document snapshot, and what repairing it means. */
module PathSnapshot {
  import opened Options
  import opened PathRewrite
  import opened PathFixpoint
  import opened PathRepair

  /** A missing or empty source is the root document. */
  function SourceKey(source: Option<string>): string {
    if source.None? || source.value == "" then "root" else source.value
  }

  /** A document has one chunk per index. */
  ghost predicate DistinctIndexes(chunks: seq<Chunk>) {
    forall i, j :: 0 <= i < j < |chunks| ==> chunks[i].index != chunks[j].index
  }

  predicate IsChanged(c: Chunk) { RewriteAll(c.content) != c.content }

  ghost function RepairedChunks(chunks: seq<Chunk>): (r: seq<Chunk>)
    ensures |r| == |chunks|
  {
    seq(|chunks|, i requires 0 <= i < |chunks| => chunks[i].(content := RewriteAll(chunks[i].content)))
  }

  /** The indexes of the chunks the repair changes, in order. */
  ghost function ChangedIndexes(chunks: seq<Chunk>): seq<int> {
    if chunks == [] then [] else
      (if IsChanged(chunks[0]) then [chunks[0].index] else []) + ChangedIndexes(chunks[1..])
  }

  /** `chunk` is the changed chunk whose evidence concept `c` carries. */
  ghost predicate Rests(c: Concept, chunk: Chunk) {
    && c.chunk == Some(chunk.index) && IsChanged(chunk)
    && c.spans.Some? && c.spans.value != []
  }

  ghost function NewSpans(c: Concept, chunk: Chunk): Option<seq<StoredSpan>>
    requires Rests(c, chunk)
  {
    if SourceKey(c.source) != SourceKey(chunk.source) then None else
      var moved := MovedSpans(chunk.content, c.spans.value);
      if moved == [] then None else Some(moved)
  }

  /** What a concept becomes: its own text repaired, and its spans moved with its chunk, dropped
      with a chunk of another source, and left alone when it rests on no changed chunk. */
  ghost predicate RepairsConcept(chunks: seq<Chunk>, c: Concept, r: Concept) {
    && r.content == RewriteAll(c.content)
    && r.slug == c.slug && r.chunk == c.chunk && r.source == c.source
    && (forall i :: 0 <= i < |chunks| && Rests(c, chunks[i]) ==> r.spans == NewSpans(c, chunks[i]))
    && ((forall i :: 0 <= i < |chunks| ==> !Rests(c, chunks[i])) ==> r.spans == c.spans)
  }

  /** Whether a concept is reported as changed. */
  ghost predicate Reported(chunks: seq<Chunk>, c: Concept) {
    RewriteAll(c.content) != c.content || exists i :: 0 <= i < |chunks| && Rests(c, chunks[i])
  }

  ghost function ReportedSlugs(chunks: seq<Chunk>, concepts: seq<Concept>): seq<string> {
    if concepts == [] then [] else
      ReportedSlugs(chunks, concepts[..|concepts| - 1]) +
      if Reported(chunks, concepts[|concepts| - 1]) then [concepts[|concepts| - 1].slug] else []
  }

  lemma {:induction false} ChangedIndexesSnoc(chunks: seq<Chunk>, c: Chunk)
    ensures ChangedIndexes(chunks + [c])
         == ChangedIndexes(chunks) + if IsChanged(c) then [c.index] else []
  {
    hide IsChanged;
    if chunks == [] {
      assert chunks + [c] == [c];
    } else {
      var all, rest := chunks + [c], chunks[1..];
      assert all[0] == chunks[0] && all[1..] == rest + [c];
      ChangedIndexesSnoc(rest, c);
      var head := if IsChanged(chunks[0]) then [chunks[0].index] else [];
      assert ChangedIndexes(all) == head + ChangedIndexes(rest + [c]);
    }
  }

  lemma {:induction false} IndexIsChanged(chunks: seq<Chunk>, index: int)
    ensures index in ChangedIndexes(chunks)
       <==> exists i :: 0 <= i < |chunks| && chunks[i].index == index && IsChanged(chunks[i])
  {
    hide IsChanged;
    if chunks != [] {
      IndexIsChanged(chunks[1..], index);
      if i :| 0 <= i < |chunks| && chunks[i].index == index && IsChanged(chunks[i]) {
        if i > 0 { assert chunks[1..][i - 1] == chunks[i]; }
      }
      if i :| 0 <= i < |chunks[1..]| && chunks[1..][i].index == index && IsChanged(chunks[1..][i]) {
        assert chunks[i + 1] == chunks[1..][i];
      }
    }
  }

  class Snapshot {
    var chunks: seq<Chunk>
    var concepts: seq<Concept>

    constructor (chunks: seq<Chunk>, concepts: seq<Concept>)
      ensures this.chunks == chunks && this.concepts == concepts
    {
      this.chunks, this.concepts := chunks, concepts;
    }

    /** `_repair_snapshot`: chunks first, then concepts against the chunk texts as they were. */
    method Repair() returns (changedChunks: seq<int>, changedConcepts: seq<string>)
      requires DistinctIndexes(chunks)
      modifies this
      ensures chunks == RepairedChunks(old(chunks))
      ensures changedChunks == ChangedIndexes(old(chunks))
      ensures |concepts| == |old(concepts)|
      ensures forall k :: 0 <= k < |concepts| ==>
                RepairsConcept(old(chunks), old(concepts)[k], concepts[k])
      ensures changedConcepts == ReportedSlugs(old(chunks), old(concepts))
    {
      var oldChunks := chunks;
      changedChunks := RepairChunks();
      changedConcepts := RepairConcepts(oldChunks, changedChunks);
    }

    method RepairChunks() returns (changedChunks: seq<int>)
      modifies this`chunks
      ensures chunks == RepairedChunks(old(chunks))
      ensures changedChunks == ChangedIndexes(old(chunks))
    {
      hide RewriteAll, MovedSpans;
      changedChunks := [];
      assert chunks[..0] == [];
      for i := 0 to |chunks|
        invariant |chunks| == |old(chunks)|
        invariant forall j :: 0 <= j < i ==> chunks[j] == RepairedChunks(old(chunks))[j]
        invariant forall j :: i <= j < |chunks| ==> chunks[j] == old(chunks)[j]
        invariant changedChunks == ChangedIndexes(old(chunks)[..i])
      {
        assert old(chunks)[..i + 1] == old(chunks)[..i] + [old(chunks)[i]];
        ChangedIndexesSnoc(old(chunks)[..i], old(chunks)[i]);
        var renewed, _ := RewriteWithSpans(chunks[i].content, []);
        if renewed != chunks[i].content {
          changedChunks := changedChunks + [chunks[i].index];
          chunks := chunks[i := chunks[i].(content := renewed)];
        }
      }
      assert old(chunks)[..|old(chunks)|] == old(chunks);
    }

    method RepairConcepts(oldChunks: seq<Chunk>, changedChunks: seq<int>)
      returns (changedConcepts: seq<string>)
      requires DistinctIndexes(oldChunks) && changedChunks == ChangedIndexes(oldChunks)
      modifies this`concepts
      ensures |concepts| == |old(concepts)|
      ensures forall k :: 0 <= k < |concepts| ==>
                RepairsConcept(oldChunks, old(concepts)[k], concepts[k])
      ensures changedConcepts == ReportedSlugs(oldChunks, old(concepts))
    {
      hide RepairsConcept, Reported;
      changedConcepts := [];
      for k := 0 to |concepts|
        invariant |concepts| == |old(concepts)|
        invariant forall j :: 0 <= j < k ==> RepairsConcept(oldChunks, old(concepts)[j], concepts[j])
        invariant forall j :: k <= j < |concepts| ==> concepts[j] == old(concepts)[j]
        invariant changedConcepts == ReportedSlugs(oldChunks, old(concepts)[..k])
      {
        assert old(concepts)[..k + 1][..k] == old(concepts)[..k];
        var row, changed := RepairConcept(oldChunks, changedChunks, concepts[k]);
        concepts := concepts[k := row];
        if changed { changedConcepts := changedConcepts + [row.slug]; }
      }
      assert old(concepts)[..|old(concepts)|] == old(concepts);
    }

    /** The loop body over one concept row. */
    static method RepairConcept(oldChunks: seq<Chunk>, changedChunks: seq<int>, c: Concept)
      returns (r: Concept, changed: bool)
      requires DistinctIndexes(oldChunks) && changedChunks == ChangedIndexes(oldChunks)
      ensures RepairsConcept(oldChunks, c, r) && r.slug == c.slug
      ensures changed <==> Reported(oldChunks, c)
    {
      var renewed, _ := RewriteWithSpans(c.content, []);
      hide RewriteAll, MovedSpans, IsChanged;
      changed := renewed != c.content;
      r := c.(content := renewed);
      if c.chunk.Some? {
        IndexIsChanged(oldChunks, c.chunk.value);
        if c.chunk.value in changedChunks && c.spans.Some? && c.spans.value != [] {
          var i := FindChunk(oldChunks, c.chunk.value);
          var spans := [];
          if SourceKey(c.source) == SourceKey(oldChunks[i].source) {
            var _, moved := RewriteWithSpans(oldChunks[i].content, c.spans.value);
            spans := moved;
          }
          assert Rests(c, oldChunks[i]);
          assert forall j :: 0 <= j < |oldChunks| && Rests(c, oldChunks[j]) ==> j == i;
          r := r.(spans := if spans == [] then None else Some(spans));
          changed := true;
        }
      }
    }
  }

  /** The row a dictionary keyed by chunk index returns. */
  method FindChunk(chunks: seq<Chunk>, index: int) returns (i: nat)
    requires exists j :: 0 <= j < |chunks| && chunks[j].index == index
    ensures i < |chunks| && chunks[i].index == index
  {
    i := 0;
    while chunks[i].index != index
      invariant i < |chunks|
      invariant forall j :: 0 <= j < i ==> chunks[j].index != index
      decreases |chunks| - i
    {
      i := i + 1;
    }
  }

  // ---- What the repair promises ----------------------------------------------------------------

  /** A span refers to a text: in bounds, not empty, and carrying the text's digest. */
  ghost predicate RefersTo(s: StoredSpan, text: string) {
    s.Span? && s.hash == DigestOf(text) && 0 <= s.start < s.end <= |text|
  }

  /** A moved span covers the repair of exactly the text an old span covered. */
  ghost predicate CarriedFrom(s: StoredSpan, o: StoredSpan, before: string, after: string) {
    && Current(before, o) && RefersTo(s, after)
    && after[s.start..s.end] == RewriteAll(before[o.start..o.end])
  }

  lemma {:induction false} MovedSpansRefer(text: string, stored: seq<StoredSpan>, s: StoredSpan)
    requires s in MovedSpans(text, stored)
    ensures exists o :: o in stored && CarriedFrom(s, o, text, RewriteAll(text))
  {
    hide Survives, FinalPos, RewriteAll;
    var o := stored[0];
    if Kept(text, o) && s == Moved(text, o) {
      RepairCommutes(text, o.start, o.end);
      assert CarriedFrom(s, o, text, RewriteAll(text));
    } else {
      MovedSpansRefer(text, stored[1..], s);
      var w :| w in stored[1..] && CarriedFrom(s, w, text, RewriteAll(text));
    }
  }

  /** Every span a repaired concept keeps on a changed chunk refers to that chunk's new text,
      and covers the repair of what it covered before. */
  lemma KeptSpansReferToNewText(chunks: seq<Chunk>, c: Concept, r: Concept, i: nat, s: StoredSpan)
    requires i < |chunks| && Rests(c, chunks[i]) && RepairsConcept(chunks, c, r)
    requires r.spans.Some? && s in r.spans.value
    ensures RefersTo(s, RepairedChunks(chunks)[i].content)
    ensures exists o :: o in c.spans.value
              && CarriedFrom(s, o, chunks[i].content, RepairedChunks(chunks)[i].content)
  {
    hide MovedSpans, RewriteAll, CarriedFrom;
    MovedSpansRefer(chunks[i].content, c.spans.value, s);
    var o :| o in c.spans.value && CarriedFrom(s, o, chunks[i].content, RewriteAll(chunks[i].content));
    CarriedRefers(s, o, chunks[i].content, RewriteAll(chunks[i].content));
  }

  lemma CarriedRefers(s: StoredSpan, o: StoredSpan, before: string, after: string)
    requires CarriedFrom(s, o, before, after)
    ensures RefersTo(s, after)
  {}

  lemma {:induction false} NothingChanged(chunks: seq<Chunk>)
    requires forall i :: 0 <= i < |chunks| ==> !IsChanged(chunks[i])
    ensures ChangedIndexes(chunks) == []
  {
    hide IsChanged;
    if chunks != [] { NothingChanged(chunks[1..]); }
  }

  lemma {:induction false} NothingReported(chunks: seq<Chunk>, concepts: seq<Concept>)
    requires forall k :: 0 <= k < |concepts| ==> !Reported(chunks, concepts[k])
    ensures ReportedSlugs(chunks, concepts) == []
  {
    hide Reported;
    if concepts != [] { NothingReported(chunks, concepts[..|concepts| - 1]); }
  }

  /** A second repair reports no changed chunk and no changed concept, and changes nothing. */
  lemma SecondRepairIsQuiet(chunks: seq<Chunk>, before: seq<Concept>, after: seq<Concept>)
    requires |before| == |after|
    requires forall k :: 0 <= k < |before| ==> RepairsConcept(chunks, before[k], after[k])
    ensures var again := RepairedChunks(chunks);
      && ChangedIndexes(again) == [] && RepairedChunks(again) == again
      && ReportedSlugs(again, after) == []
      && forall k, r :: 0 <= k < |after| && RepairsConcept(again, after[k], r) ==> r == after[k]
  {
    var again := RepairedChunks(chunks);
    forall i | 0 <= i < |again| ensures !IsChanged(again[i]) {
      RepairIsProjection(chunks[i].content);
    }
    forall k | 0 <= k < |after| ensures RewriteAll(after[k].content) == after[k].content {
      RepairIsProjection(before[k].content);
    }
    hide RewriteAll, MovedSpans;
    NothingChanged(again);
    assert RepairedChunks(again) == again;
    forall k | 0 <= k < |after| ensures !Reported(again, after[k]) {}
    NothingReported(again, after);
  }
}
