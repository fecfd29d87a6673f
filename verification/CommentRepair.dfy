/** Replacing the concepts made from the comments on a document in a stored snapshot. */
module CommentRepair {
  import opened Options
  import opened CommentAnchor
  import opened KeySort
  import opened SlugOrder

  /** A concept row; `extra` is whatever else the database keeps in it. */
  datatype Row = Row(slug: string, title: string, kind: string, content: string, tags: seq<string>,
                     relations: seq<string>, chunk: int, source: Option<string>, spans: Option<string>,
                     modelId: Option<string>, prompt: Option<string>, order: Option<int>,
                     generated: Option<nat>, extra: Option<string>)

  /** The services a repair uses, and the setting that tags attachments. */
  datatype Tools = Tools(slugify: string -> string, evidence: (string, string, string) -> Option<string>,
                         tagAttachments: bool)

  predicate IsComment(tags: seq<string>, globals: seq<string>) {
    "review" in tags && ("comment" in tags || "review" !in globals)
  }

  function Kept(rows: seq<Row>, globals: seq<string>): seq<Row> {
    if rows == [] then []
    else (if IsComment(rows[0].tags, globals) then [] else [rows[0]]) + Kept(rows[1..], globals)
  }

  function Slugs(rows: seq<Row>): set<string> { set i | 0 <= i < |rows| :: rows[i].slug }

  /** The last row with a slug, as a dictionary keeps it. */
  function Lookup(rows: seq<Row>, slug: string): Option<Row> {
    if rows == [] then None
    else if Lookup(rows[1..], slug).Some? then Lookup(rows[1..], slug)
    else if rows[0].slug == slug then Some(rows[0]) else None
  }

  // ---- Rows in order of slug -----------------------------------------------------------------------

  function SlugOf(row: Row): string { row.slug }

  /** Strictly ascending slugs: in order and without repetition. */
  predicate Ascending(rows: seq<Row>) {
    forall i, j :: 0 <= i < j < |rows| ==> Below(rows[i].slug, rows[j].slug)
  }

  predicate Distinct(rows: seq<Row>) {
    forall i, j :: 0 <= i < j < |rows| ==> rows[i].slug != rows[j].slug
  }

  /** Distinct slugs in order ascend strictly. */
  lemma SortedAscends(rows: seq<Row>)
    requires Distinct(rows)
    ensures Ascending(Sorted(rows, SlugOf))
  {
    var sorted := Sorted(rows, SlugOf);
    SortOrders(rows, SlugOf);
    SortPermutes(rows, SlugOf);
    hide Sorted, Below;
    DistinctSlugs(rows);
    SameSlugs(sorted, rows);
    FewerSlugs(sorted);
    forall i, j | 0 <= i < j < |sorted| ensures Below(sorted[i].slug, sorted[j].slug) {
      assert !Below(SlugOf(sorted[j]), SlugOf(sorted[i]));
      BelowTrichotomy(sorted[i].slug, sorted[j].slug);
    }
  }

  lemma {:induction false} DistinctSlugs(rows: seq<Row>)
    requires Distinct(rows)
    ensures |Slugs(rows)| == |rows|
  {
    if rows != [] {
      var init, last := rows[..|rows| - 1], rows[|rows| - 1];
      DistinctSlugs(init);
      assert Slugs(rows) == Slugs(init) + {last.slug};
    }
  }

  /** As many slugs as rows only when they are distinct. */
  lemma {:induction false} FewerSlugs(rows: seq<Row>)
    ensures |Slugs(rows)| <= |rows|
    ensures |Slugs(rows)| == |rows| ==> Distinct(rows)
  {
    if rows != [] {
      var init, last := rows[..|rows| - 1], rows[|rows| - 1];
      FewerSlugs(init);
      assert Slugs(rows) == Slugs(init) + {last.slug};
      if last.slug in Slugs(init) { assert Slugs(rows) == Slugs(init); }
      hide Slugs;
      if |Slugs(rows)| == |rows| {
        forall i, j | 0 <= i < j < |rows| ensures rows[i].slug != rows[j].slug {
          if j < |init| { assert init[i] == rows[i] && init[j] == rows[j]; } else { MemberSlug(init, i); }
        }
      }
    }
  }

  lemma MemberSlug(rows: seq<Row>, i: nat)
    requires i < |rows|
    ensures rows[i].slug in Slugs(rows)
  {}

  lemma FirstMember(a: seq<Row>)
    ensures a != [] ==> a[0] in a
  {}

  // ---- The rows a repair makes -----------------------------------------------------------------------

  datatype Snapshot = Snapshot(chunks: seq<Chunk>, globals: seq<string>, hash: string, rows: seq<Row>)

  const ATTACHMENT := "attachment"

  /** Each tag once, where it first stood. */
  function Dedup(tags: seq<string>): seq<string> {
    if tags == [] then []
    else
      var init := tags[..|tags| - 1];
      Dedup(init) + (if tags[|tags| - 1] in init then [] else [tags[|tags| - 1]])
  }

  lemma {:induction false} DedupMembers(tags: seq<string>)
    ensures forall t :: t in Dedup(tags) <==> t in tags
  {
    if tags != [] {
      DedupMembers(tags[..|tags| - 1]);
      assert tags == tags[..|tags| - 1] + [tags[|tags| - 1]];
    }
  }

  function TagsOf(comment: Comment, tools: Tools, globals: seq<string>): seq<string> {
    Dedup(comment.concept.tags
          + (if comment.source != "root" && tools.tagAttachments then [ATTACHMENT] else [])
          + globals)
  }

  function Base(comment: Comment, tools: Tools): string {
    var slug := tools.slugify(comment.concept.title);
    if slug == "" then "review" else slug
  }

  /** The row before its date. */
  function Undated(s: Snapshot, tools: Tools, comment: Comment, chunk: Chunk, slug: string,
                   order: Option<int>): Row {
    var c := comment.concept;
    Row(slug, c.title, c.kind, c.content, TagsOf(comment, tools, s.globals), c.relations, chunk.index,
        chunk.source, tools.evidence(chunk.content, c.content, QuestionOf(c.content)), None, None, order,
        None, None)
  }

  /** The time at which each row is made, by its slug: the clock is read once for each. */
  type Clock = string -> nat

  /** A row keeps the place and, when nothing else changed, the date of the row it replaces. */
  function RowOf(s: Snapshot, tools: Tools, comment: Comment, chunk: Chunk, slug: string, now: Clock): Row {
    var previous := Lookup(s.rows, slug);
    var row := Undated(s, tools, comment, chunk, slug, if previous.Some? then previous.value.order else None);
    if previous.Some? && previous.value.(generated := None, extra := None) == row
    then row.(generated := previous.value.generated)
    else row.(generated := Some(now(slug)))
  }

  function Produce(s: Snapshot, tools: Tools, comments: seq<Comment>, used: set<string>, now: Clock): Option<seq<Row>> {
    if comments == [] then Some([])
    else
      var chunk := ChunkOf(s.chunks, comments[0]);
      if chunk.None? then None
      else
        var slug := Fresh(Base(comments[0], tools), used);
        var rest := Produce(s, tools, comments[1..], used + {slug}, now);
        if rest.None? then None
        else Some([RowOf(s, tools, comments[0], chunk.value, slug, now)] + rest.value)
  }

  function Repaired(s: Snapshot, tools: Tools, comments: seq<Comment>, now: Clock): Option<Snapshot> {
    var kept := Kept(s.rows, s.globals);
    var rows := Produce(s, tools, comments, Slugs(kept), now);
    if rows.None? then None else Some(s.(rows := Sorted(kept + rows.value, SlugOf)))
  }

  // ---- Slugs stay unique -------------------------------------------------------------------------------

  lemma FreshIsNew(base: string, used: set<string>)
    ensures Fresh(base, used) !in used
  {
    FreshFromIsFirst(base, used, 1);
  }

  /** The rows made have slugs of their own, in the order and number of the comments. */
  lemma {:induction false} ProducedRows(s: Snapshot, tools: Tools, comments: seq<Comment>, used: set<string>, now: Clock)
    requires Produce(s, tools, comments, used, now).Some?
    ensures var rows := Produce(s, tools, comments, used, now).value;
      && |rows| == |comments| && Distinct(rows)
      && (forall r :: r in rows ==> r.slug !in used)
      && (forall i :: 0 <= i < |rows| ==> rows[i].tags == TagsOf(comments[i], tools, s.globals))
  {
    if comments != [] {
      var slug := Fresh(Base(comments[0], tools), used);
      FreshIsNew(Base(comments[0], tools), used);
      hide Fresh, TagsOf, ChunkOf;
      ProducedRows(s, tools, comments[1..], used + {slug}, now);
      var rows := Produce(s, tools, comments, used, now).value;
      var rest := Produce(s, tools, comments[1..], used + {slug}, now).value;
      assert rows[0].slug == slug && rows[1..] == rest;
      forall j | 0 < j < |rows| ensures rows[j].slug != slug { assert rows[j] == rest[j - 1] && rest[j - 1] in rest; }
    }
  }

  lemma {:induction false} KeptCounts(rows: seq<Row>, globals: seq<string>)
    ensures forall x :: multiset(Kept(rows, globals))[x]
                     == if IsComment(x.tags, globals) then 0 else multiset(rows)[x]
  {
    hide IsComment;
    if rows != [] {
      KeptCounts(rows[1..], globals);
      assert rows == [rows[0]] + rows[1..];
    }
  }

  lemma KeptMembers(rows: seq<Row>, globals: seq<string>)
    ensures forall x :: x in Kept(rows, globals) <==> x in rows && !IsComment(x.tags, globals)
  {
    hide IsComment;
    KeptCounts(rows, globals);
    forall x ensures x in Kept(rows, globals) <==> x in rows && !IsComment(x.tags, globals) {
      assert x in Kept(rows, globals) <==> x in multiset(Kept(rows, globals));
      assert x in rows <==> x in multiset(rows);
    }
  }

  lemma {:induction false} KeptDistinct(rows: seq<Row>, globals: seq<string>)
    requires Distinct(rows)
    ensures Distinct(Kept(rows, globals))
  {
    hide IsComment;
    if rows != [] {
      KeptDistinct(rows[1..], globals);
      KeptMembers(rows[1..], globals);
      var rest := Kept(rows[1..], globals);
      forall r | r in rest ensures r.slug != rows[0].slug { assert r in rows[1..]; }
    }
  }

  lemma SlugsMembers(rows: seq<Row>)
    ensures forall r :: r in rows ==> r.slug in Slugs(rows)
  {}

  lemma JoinedDistinct(a: seq<Row>, b: seq<Row>)
    requires Distinct(a) && Distinct(b) && forall r :: r in b ==> r.slug !in Slugs(a)
    ensures Distinct(a + b)
  {
    SlugsMembers(a);
    var c := a + b;
    forall i, j | 0 <= i < j < |c| ensures c[i].slug != c[j].slug {
      if i < |a| <= j { assert a[i] in a && b[j - |a|] in b; }
    }
  }

  lemma RepairedDistinct(s: Snapshot, tools: Tools, comments: seq<Comment>, now: Clock)
    requires Distinct(s.rows) && Repaired(s, tools, comments, now).Some?
    ensures var kept := Kept(s.rows, s.globals);
      Distinct(kept + Produce(s, tools, comments, Slugs(kept), now).value)
  {
    var kept := Kept(s.rows, s.globals);
    hide Produce, Kept;
    KeptDistinct(s.rows, s.globals);
    ProducedRows(s, tools, comments, Slugs(kept), now);
    JoinedDistinct(kept, Produce(s, tools, comments, Slugs(kept), now).value);
  }

  /** A repair leaves every row that is not a comment as it was, adds one row for each comment and
      no other, and leaves the rows in strict order of slug. */
  lemma RepairKeepsOthers(s: Snapshot, tools: Tools, comments: seq<Comment>, now: Clock)
    requires Distinct(s.rows) && Repaired(s, tools, comments, now).Some?
    ensures var r := Repaired(s, tools, comments, now).value;
      var kept := Kept(s.rows, s.globals);
      && Ascending(r.rows) && |r.rows| == |kept| + |comments|
      && multiset(r.rows) == multiset(kept) + multiset(Produce(s, tools, comments, Slugs(kept), now).value)
      && (forall x :: x in s.rows && !IsComment(x.tags, s.globals) ==> x in r.rows)
      && r == s.(rows := r.rows)
  {
    var kept := Kept(s.rows, s.globals);
    var rows := Produce(s, tools, comments, Slugs(kept), now).value;
    RepairedDistinct(s, tools, comments, now);
    KeptMembers(s.rows, s.globals);
    ProducedRows(s, tools, comments, Slugs(kept), now);
    hide Kept, Produce, IsComment, Distinct;
    SortedAscends(kept + rows);
    SortPermutes(kept + rows, SlugOf);
    SameMembers(Sorted(kept + rows, SlugOf), kept + rows);
  }

  // ---- Repairing twice ----------------------------------------------------------------------------------

  /** Every row a repair makes will be recognised as a comment by the next one. */
  predicate Recognised(comments: seq<Comment>, tools: Tools, globals: seq<string>) {
    forall i :: 0 <= i < |comments| ==> IsComment(TagsOf(comments[i], tools, globals), globals)
  }

  /** In terms of what a caller has: the concept's own tags and the document's. */
  lemma RecognisedIff(comment: Comment, tools: Tools, globals: seq<string>)
    ensures var tags := comment.concept.tags + globals;
      IsComment(TagsOf(comment, tools, globals), globals)
      <==> "review" in tags && ("comment" in tags || "review" !in globals)
  {
    var attachment := if comment.source != "root" && tools.tagAttachments then [ATTACHMENT] else [];
    DedupMembers(comment.concept.tags + attachment + globals);
  }

  lemma {:induction false} LookupFinds(rows: seq<Row>, row: Row)
    requires Distinct(rows) && row in rows
    ensures Lookup(rows, row.slug) == Some(row)
  {
    if row in rows[1..] {
      LookupFinds(rows[1..], row);
    } else {
      assert row == rows[0];
      LookupMisses(rows[1..], row.slug);
    }
  }

  lemma {:induction false} LookupMisses(rows: seq<Row>, slug: string)
    requires forall r :: r in rows ==> r.slug != slug
    ensures Lookup(rows, slug).None?
  {
    if rows != [] {
      assert forall r :: r in rows[1..] ==> r in rows;
      LookupMisses(rows[1..], slug);
    }
  }

  /** A row made again where it already stands is that row, date and all. */
  lemma RowIsStable(s: Snapshot, t: Snapshot, tools: Tools, comment: Comment, chunk: Chunk, slug: string,
                    now: Clock, later: Clock)
    requires t == s.(rows := t.rows)
    requires Lookup(t.rows, slug) == Some(RowOf(s, tools, comment, chunk, slug, now))
    ensures RowOf(t, tools, comment, chunk, slug, later) == RowOf(s, tools, comment, chunk, slug, now)
  {
    hide TagsOf, QuestionOf, Lookup;
  }

  lemma {:induction false} ProducedAgain(s: Snapshot, t: Snapshot, tools: Tools, comments: seq<Comment>,
                                         used: set<string>, now: Clock, later: Clock)
    requires t == s.(rows := t.rows) && Distinct(t.rows)
    requires Produce(s, tools, comments, used, now).Some?
    requires forall r :: r in Produce(s, tools, comments, used, now).value ==> r in t.rows
    ensures Produce(t, tools, comments, used, later) == Produce(s, tools, comments, used, now)
  {
    if comments != [] {
      hide ChunkOf, Fresh, RowOf;
      var chunk := ChunkOf(s.chunks, comments[0]).value;
      var slug := Fresh(Base(comments[0], tools), used);
      var rows := Produce(s, tools, comments, used, now).value;
      var rest := Produce(s, tools, comments[1..], used + {slug}, now).value;
      var row := RowOf(s, tools, comments[0], chunk, slug, now);
      assert rows == [row] + rest && row in rows;
      assert forall r :: r in rest ==> r in rows;
      ProducedAgain(s, t, tools, comments[1..], used + {slug}, now, later);
      assert row.slug == slug by { RowSlug(s, tools, comments[0], chunk, slug, now); }
      LookupFinds(t.rows, row);
      RowIsStable(s, t, tools, comments[0], chunk, slug, now, later);
    }
  }

  lemma RowSlug(s: Snapshot, tools: Tools, comment: Comment, chunk: Chunk, slug: string, now: Clock)
    ensures RowOf(s, tools, comment, chunk, slug, now).slug == slug
  {}

  /** Which comments are anchored does not depend on the rows. */
  lemma {:induction false} SameRefusals(s: Snapshot, t: Snapshot, tools: Tools, comments: seq<Comment>,
                                        used: set<string>, other: set<string>, now: Clock, later: Clock)
    requires t.chunks == s.chunks
    ensures Produce(s, tools, comments, used, now).None? == Produce(t, tools, comments, other, later).None?
  {
    hide ChunkOf, Fresh, RowOf;
    if comments != [] && ChunkOf(s.chunks, comments[0]).Some? {
      SameRefusals(s, t, tools, comments[1..], used + {Fresh(Base(comments[0], tools), used)},
                   other + {Fresh(Base(comments[0], tools), other)}, now, later);
    }
  }

  lemma {:induction false} KeptJoins(a: seq<Row>, b: seq<Row>, globals: seq<string>)
    ensures Kept(a + b, globals) == Kept(a, globals) + Kept(b, globals)
  {
    hide IsComment;
    if a == [] {
      assert a + b == b;
    } else {
      assert (a + b)[1..] == a[1..] + b;
      KeptJoins(a[1..], b, globals);
    }
  }

  lemma {:induction false} KeptAll(rows: seq<Row>, globals: seq<string>)
    requires forall r :: r in rows ==> !IsComment(r.tags, globals)
    ensures Kept(rows, globals) == rows
  {
    hide IsComment;
    if rows != [] {
      assert forall r :: r in rows[1..] ==> r in rows;
      KeptAll(rows[1..], globals);
    }
  }

  lemma {:induction false} KeptNone(rows: seq<Row>, globals: seq<string>)
    ensures Kept(rows, globals) == [] <==> forall r :: r in rows ==> IsComment(r.tags, globals)
  {
    KeptMembers(rows, globals);
    FirstMember(Kept(rows, globals));
  }

  /** What the second repair keeps: what the first kept, and what the first made unrecognised. */
  lemma KeptAgain(s: Snapshot, tools: Tools, comments: seq<Comment>, now: Clock)
    requires Distinct(s.rows) && Repaired(s, tools, comments, now).Some?
    ensures var kept := Kept(s.rows, s.globals);
      var again := Kept(Repaired(s, tools, comments, now).value.rows, s.globals);
      && |again| >= |kept|
      && (|again| == |kept| <==> Recognised(comments, tools, s.globals))
      && (Recognised(comments, tools, s.globals) ==> multiset(again) == multiset(kept))
  {
    var kept := Kept(s.rows, s.globals);
    var rows := Produce(s, tools, comments, Slugs(kept), now).value;
    hide Produce, TagsOf, IsComment, Sorted, Kept, Recognised;
    ProducedRows(s, tools, comments, Slugs(kept), now);
    RowsRecognised(rows, comments, tools, s.globals);
    KeptMembers(s.rows, s.globals);
    KeptAll(kept, s.globals);
    KeptNone(rows, s.globals);
    KeptJoins(kept, rows, s.globals);
    KeptSorted(kept + rows, s.globals);
    var more := Kept(rows, s.globals);
    SameMembers(Kept(Sorted(kept + rows, SlugOf), s.globals), kept + more);
    assert more == [] ==> kept + more == kept;
  }

  lemma KeptSorted(rows: seq<Row>, globals: seq<string>)
    ensures multiset(Kept(Sorted(rows, SlugOf), globals)) == multiset(Kept(rows, globals))
  {
    hide IsComment, Kept, Sorted;
    SortPermutes(rows, SlugOf);
    KeptCounts(Sorted(rows, SlugOf), globals);
    KeptCounts(rows, globals);
  }

  lemma RowsRecognised(rows: seq<Row>, comments: seq<Comment>, tools: Tools, globals: seq<string>)
    requires |rows| == |comments|
    requires forall i :: 0 <= i < |rows| ==> rows[i].tags == TagsOf(comments[i], tools, globals)
    ensures (forall r :: r in rows ==> IsComment(r.tags, globals)) <==> Recognised(comments, tools, globals)
  {
    hide IsComment, TagsOf;
    forall i | 0 <= i < |rows| ensures rows[i] in rows {}
    if Recognised(comments, tools, globals) {
      forall r | r in rows ensures IsComment(r.tags, globals) {
        var i :| 0 <= i < |rows| && rows[i] == r;
        assert IsComment(TagsOf(comments[i], tools, globals), globals);
      }
    } else {
      var i :| 0 <= i < |comments| && !IsComment(TagsOf(comments[i], tools, globals), globals);
      assert rows[i] in rows;
    }
  }

  /** Repairing again, at whatever time, changes nothing, dates included, exactly when every row the
      first repair made is recognised as a comment by its tags. */
  lemma RepairTwice(s: Snapshot, tools: Tools, comments: seq<Comment>, now: Clock, later: Clock)
    requires Distinct(s.rows) && Repaired(s, tools, comments, now).Some?
    ensures var once := Repaired(s, tools, comments, now).value;
      && Repaired(once, tools, comments, later).Some?
      && (Repaired(once, tools, comments, later) == Some(once) <==> Recognised(comments, tools, s.globals))
  {
    var once := Repaired(s, tools, comments, now).value;
    var kept := Kept(s.rows, s.globals);
    var again := Kept(once.rows, s.globals);
    RepairKeepsOthers(s, tools, comments, now);
    KeptAgain(s, tools, comments, now);
    SameRefusals(s, once, tools, comments, Slugs(kept), Slugs(again), now, later);
    AscendingIsDistinct(once.rows);
    RepairKeepsOthers(once, tools, comments, later);
    if Recognised(comments, tools, s.globals) {
      hide Kept, Produce, Sorted, Recognised;
      var rows := Produce(s, tools, comments, Slugs(kept), now).value;
      SameSlugs(again, kept);
      forall r | r in rows ensures r in once.rows {
        assert r in multiset(rows) && r in multiset(once.rows);
      }
      ProducedAgain(s, once, tools, comments, Slugs(kept), now, later);
      var twice := Repaired(once, tools, comments, later).value;
      assert multiset(twice.rows) == multiset(once.rows);
      AscendingTells(once.rows);
      AscendingTells(twice.rows);
      OrderedUnique(twice.rows, once.rows, SlugOf);
    }
  }

  /** The tags that extraction gives every concept of a comment: these two, and the author if there is one. */
  predicate Extracted(comment: Comment) {
    2 <= |comment.concept.tags| <= 3 && comment.concept.tags[..2] == ["review", "comment"]
  }

  /** So the concepts the program extracts are recognised whatever tags the document has, and repairing
      again changes nothing, dates included, however late. */
  lemma ExtractedIsStable(s: Snapshot, tools: Tools, comments: seq<Comment>, now: Clock, later: Clock)
    requires Distinct(s.rows) && Repaired(s, tools, comments, now).Some?
    requires forall i :: 0 <= i < |comments| ==> Extracted(comments[i])
    ensures var once := Repaired(s, tools, comments, now).value;
      Repaired(once, tools, comments, later) == Some(once)
  {
    forall i | 0 <= i < |comments| ensures IsComment(TagsOf(comments[i], tools, s.globals), s.globals) {
      RecognisedIff(comments[i], tools, s.globals);
      var tags := comments[i].concept.tags;
      assert tags[0] == tags[..2][0] == "review" && tags[1] == tags[..2][1] == "comment";
      assert tags[0] in tags && tags[1] in tags;
    }
    hide Repaired, IsComment, TagsOf;
    RepairTwice(s, tools, comments, now, later);
  }

  /** Strictly ascending rows are in order, and their slugs tell them apart. */
  lemma AscendingTells(rows: seq<Row>)
    requires Ascending(rows)
    ensures Ordered(rows, SlugOf) && KeyTells(rows, SlugOf)
  {
    forall i, j | 0 <= i < j < |rows| ensures !Below(SlugOf(rows[j]), SlugOf(rows[i])) {
      assert Below(rows[i].slug, rows[j].slug);
      BelowTrichotomy(rows[i].slug, rows[j].slug);
    }
    AscendingIsDistinct(rows);
    forall x, y | x in rows && y in rows && SlugOf(x) == SlugOf(y) ensures x == y {
      var i :| 0 <= i < |rows| && rows[i] == x;
      var j :| 0 <= j < |rows| && rows[j] == y;
    }
  }

  lemma AscendingIsDistinct(rows: seq<Row>)
    requires Ascending(rows)
    ensures Distinct(rows)
  {
    forall i, j | 0 <= i < j < |rows| ensures rows[i].slug != rows[j].slug {
      BelowTrichotomy(rows[i].slug, rows[j].slug);
    }
  }

  lemma SameSlugs(a: seq<Row>, b: seq<Row>)
    requires multiset(a) == multiset(b)
    ensures Slugs(a) == Slugs(b)
  {
    SameMembers(a, b);
    forall x ensures x in Slugs(a) <==> x in Slugs(b) {
      if x in Slugs(a) {
        var i :| 0 <= i < |a| && a[i].slug == x;
        assert a[i] in b;
      }
      if x in Slugs(b) {
        var i :| 0 <= i < |b| && b[i].slug == x;
        assert b[i] in a;
      }
    }
  }

  // ---- The repair in place --------------------------------------------------------------------------------

  lemma {:induction false} MatchesSnoc(chunks: seq<Chunk>, chunk: Chunk, source: string, anchor: string)
    ensures var head := Matches(chunks, source, anchor);
      var last := Matches([chunk], source, anchor);
      Matches(chunks + [chunk], source, anchor)
        == if head.Ambiguous? || last.Ambiguous? then Ambiguous else At(head.chunks + last.chunks)
  {
    hide Find;
    if chunks == [] {
      assert [] + [chunk] == [chunk];
    } else {
      assert (chunks + [chunk])[1..] == chunks[1..] + [chunk];
      MatchesSnoc(chunks[1..], chunk, source, anchor);
    }
  }

  lemma {:induction false} AmbiguousStays(chunks: seq<Chunk>, more: seq<Chunk>, source: string, anchor: string)
    requires Matches(chunks, source, anchor).Ambiguous?
    ensures Matches(chunks + more, source, anchor).Ambiguous?
  {
    hide Find;
    if chunks != [] {
      assert (chunks + more)[1..] == chunks[1..] + more;
      if Matches(chunks[1..], source, anchor).Ambiguous? { AmbiguousStays(chunks[1..], more, source, anchor); }
    }
  }

  /** The chunk a comment belongs to, if it is anchored. */
  method FindChunk(chunks: seq<Chunk>, comment: Comment) returns (chunk: Option<Chunk>)
    ensures chunk == ChunkOf(chunks, comment)
  {
    hide Find;
    var anchor := Anchor(comment.concept.content);
    var matches := [];
    var i := 0;
    while i < |chunks|
      invariant 0 <= i <= |chunks|
      invariant Matches(chunks[..i], comment.source, anchor) == At(matches)
    {
      MatchesSnoc(chunks[..i], chunks[i], comment.source, anchor);
      assert chunks[..i + 1] == chunks[..i] + [chunks[i]];
      if SourceOf(chunks[i]) == comment.source && anchor != "" {
        var start := Find(chunks[i].content, anchor, 0);
        if start.Some? {
          if Find(chunks[i].content, anchor, start.value + 1).Some? {
            AmbiguousStays(chunks[..i + 1], chunks[i + 1..], comment.source, anchor);
            assert chunks == chunks[..i + 1] + chunks[i + 1..];
            return None;
          }
          matches := matches + [chunks[i]];
        }
      }
      i := i + 1;
    }
    assert chunks[..i] == chunks;
    return if |matches| == 1 then Some(matches[0]) else None;
  }

  datatype Outcome = NoChunks | SourceChanged | NotAnchored | Replaced(removed: nat)

  class Stored {
    const chunks: seq<Chunk>
    const globals: seq<string>
    const hash: string
    var concepts: seq<Row>

    constructor (s: Snapshot)
      ensures Value() == s
    {
      chunks, globals, hash, concepts := s.chunks, s.globals, s.hash, s.rows;
    }

    function Value(): Snapshot reads this { Snapshot(chunks, globals, hash, concepts) }

    /** Replace the comment rows, or refuse and leave all rows as they are. */
    method Replace(comments: seq<Comment>, digest: string, tools: Tools, now: Clock) returns (outcome: Outcome)
      modifies this
      ensures outcome.NoChunks? <==> chunks == []
      ensures outcome.SourceChanged? <==> chunks != [] && hash != "" && hash != digest
      ensures outcome.NotAnchored? ==> Repaired(old(Value()), tools, comments, now).None?
      ensures outcome.Replaced? ==> Repaired(old(Value()), tools, comments, now) == Some(Value())
      ensures outcome.Replaced? ==> outcome.removed == |old(concepts)| - |Kept(old(concepts), globals)|
      ensures !outcome.Replaced? ==> Value() == old(Value())
    {
      if chunks == [] { return NoChunks; }
      if hash != "" && hash != digest { return SourceChanged; }
      var kept := Kept(concepts, globals);
      KeptShorter(concepts, globals);
      var removed := |concepts| - |kept|;
      var all := AddRows(Value(), kept, comments, tools, now);
      if all.None? { return NotAnchored; }
      hide Kept, Sorted, Produce;
      concepts := Sorted(all.value, SlugOf);
      return Replaced(removed);
    }
  }

  /** `made` and then what is still to be made. */
  function Joined(made: seq<Row>, rest: Option<seq<Row>>): Option<seq<Row>> {
    if rest.None? then None else Some(made + rest.value)
  }

  lemma ProduceStep(s: Snapshot, tools: Tools, comments: seq<Comment>, i: nat, used: set<string>, now: Clock,
                    made: seq<Row>)
    requires i < |comments|
    ensures var chunk := ChunkOf(s.chunks, comments[i]);
      Joined(made, Produce(s, tools, comments[i..], used, now))
      == if chunk.None? then None
         else
           var slug := Fresh(Base(comments[i], tools), used);
           Joined(made + [RowOf(s, tools, comments[i], chunk.value, slug, now)],
                  Produce(s, tools, comments[i + 1..], used + {slug}, now))
  {
    hide ChunkOf, Fresh, RowOf;
    var tail := comments[i..];
    assert tail[0] == comments[i] && tail[1..] == comments[i + 1..];
    var chunk := ChunkOf(s.chunks, comments[i]);
    if chunk.Some? {
      var slug := Fresh(Base(comments[i], tools), used);
      var row := RowOf(s, tools, comments[i], chunk.value, slug, now);
      var rest := Produce(s, tools, comments[i + 1..], used + {slug}, now);
      if rest.Some? { assert made + ([row] + rest.value) == made + [row] + rest.value; }
    }
  }

  /** The rows kept with a row for each comment after them, unless a comment is not anchored. */
  method AddRows(s: Snapshot, kept: seq<Row>, comments: seq<Comment>, tools: Tools, now: Clock)
      returns (all: Option<seq<Row>>)
    ensures all == Joined(kept, Produce(s, tools, comments, Slugs(kept), now))
  {
    hide ChunkOf, Fresh, RowOf, Produce, Joined;
    var rows := kept;
    var used := Slugs(kept);
    var i := 0;
    ghost var goal := Joined(kept, Produce(s, tools, comments, used, now));
    assert comments[0..] == comments;
    while i < |comments|
      invariant 0 <= i <= |comments|
      invariant Joined(rows, Produce(s, tools, comments[i..], used, now)) == goal
    {
      var chunk := FindChunk(s.chunks, comments[i]);
      ProduceStep(s, tools, comments, i, used, now, rows);
      if chunk.None? { return None; }
      var slug := FindSlug(Base(comments[i], tools), used);
      rows := rows + [RowOf(s, tools, comments[i], chunk.value, slug, now)];
      used := used + {slug};
      i := i + 1;
    }
    assert comments[i..] == [];
    NoneLeft(s, tools, used, now, rows);
    return Some(rows);
  }

  lemma NoneLeft(s: Snapshot, tools: Tools, used: set<string>, now: Clock, rows: seq<Row>)
    ensures Joined(rows, Produce(s, tools, [], used, now)) == Some(rows)
  {
    assert rows + [] == rows;
  }

  lemma KeptShorter(rows: seq<Row>, globals: seq<string>)
    ensures |Kept(rows, globals)| <= |rows|
  {
    hide IsComment;
    if rows != [] { KeptShorter(rows[1..], globals); }
  }
}
