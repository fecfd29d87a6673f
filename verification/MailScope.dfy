/** Classifying the points of a search index by mail scope, with counters that balance. */
module MailScope {
  import opened Options
  import opened MailAncestry

  // ---- Points and what SQL knows of them -------------------------------------------------------------

  datatype Kind = ConceptPoint | ChunkPoint | OtherPoint

  /** A point as it is read: fields that are missing or of the wrong type are `None`; `slug` and
      `doc` are non-empty, `chunk` is not negative. */
  datatype Point = Point(id: string, kind: Kind, doc: Option<string>, slug: Option<string>,
                         chunk: Option<nat>, generation: Option<string>, scope: Option<Scope>,
                         version: Option<int>, fragment: Option<string>)

  const VERSION := 1

  datatype Concept = Concept(source: Option<string>, chunk: Option<nat>)

  /** The canonical rows, and which point ids are those of an active generation. */
  datatype Sql = Sql(documents: set<string>, generations: map<string, string>,
                     concepts: map<(string, string), Concept>, chunks: map<(string, nat), Option<string>>,
                     scopes: map<string, map<string, Scope>>,
                     conceptId: (string, string, Option<string>) -> string,
                     activeChunk: (string, Option<string>, nat, string, Option<string>) -> bool)
  {
    function Generation(doc: string): Option<string> {
      if doc in generations then Some(generations[doc]) else None
    }
    function ScopeAt(doc: string, source: Option<string>): Scope {
      if doc in scopes && source.Some? && source.value in scopes[doc] then scopes[doc][source.value] else Unknown
    }
  }

  datatype Reason = Orphan | MissingCanonical | InvalidIdentity | SourceMismatch | SourceMissing | BrokenTree

  /** What is found of a point: nothing more when its generation is not the active one. */
  datatype Verdict = Nonactive
                   | Judged(orphan: bool, missing: bool, invalid: bool, broken: bool, scope: Scope,
                            reason: Option<Reason>)

  predicate Known(sql: Sql, p: Point) { p.doc.Some? && p.doc.value in sql.documents }

  /** Whether the point's id is the one its canonical identity has. */
  predicate ValidIdentity(sql: Sql, p: Point)
    requires Known(sql, p)
  {
    var doc := p.doc.value;
    match p.kind
    case ConceptPoint => p.slug.Some? && p.id == sql.conceptId(doc, p.slug.value, sql.Generation(doc))
    case ChunkPoint =>
      p.chunk.Some? && sql.activeChunk(doc, sql.Generation(doc), p.chunk.value, p.id, p.fragment)
    case OtherPoint => false
  }

  /** The point names a concept or chunk that has no canonical row. */
  predicate Missing(sql: Sql, p: Point)
    requires Known(sql, p)
  {
    match p.kind
    case ConceptPoint => p.slug.Some? && (p.doc.value, p.slug.value) !in sql.concepts
    case ChunkPoint => p.chunk.Some? && (p.doc.value, p.chunk.value) !in sql.chunks
    case OtherPoint => false
  }

  function SourceAt(sql: Sql, p: Point): (Option<string>, Option<nat>)
    requires Known(sql, p)
  {
    if p.kind.ConceptPoint? && p.slug.Some? && (p.doc.value, p.slug.value) in sql.concepts then
      var c := sql.concepts[(p.doc.value, p.slug.value)];
      (c.source, c.chunk)
    else if p.kind.ChunkPoint? && p.chunk.Some? then
      var key := (p.doc.value, p.chunk.value);
      (if key in sql.chunks then sql.chunks[key] else None, p.chunk)
    else (None, None)
  }

  function Filled(source: Option<string>): bool { source.Some? && source.value != "" }

  /** The scope of a point whose identity is valid and whose row exists, and why it is unknown. */
  function Place(sql: Sql, p: Point): (Scope, Option<Reason>)
    requires Known(sql, p)
  {
    var (source, index) := SourceAt(sql, p);
    var doc := p.doc.value;
    var chunkSource := if index.Some? && (doc, index.value) in sql.chunks then sql.chunks[(doc, index.value)] else None;
    if p.kind.ConceptPoint? && Filled(source) && Filled(chunkSource) && source != chunkSource then
      (Unknown, Some(SourceMismatch))
    else
      var scope := sql.ScopeAt(doc, source);
      (scope, if scope.Unknown? then Some(if Filled(source) then BrokenTree else SourceMissing) else None)
  }

  function Judge(sql: Sql, p: Point): Verdict {
    if !Known(sql, p) then Judged(true, false, false, false, Unknown, Some(Orphan))
    else if p.generation != sql.Generation(p.doc.value) then Nonactive
    else
      var missing := Missing(sql, p);
      if !ValidIdentity(sql, p) then Judged(false, missing, true, false, Unknown, Some(InvalidIdentity))
      else if missing then Judged(false, true, false, false, Unknown, Some(MissingCanonical))
      else
        var (scope, reason) := Place(sql, p);
        Judged(false, false, false, reason == Some(BrokenTree) || reason == Some(SourceMismatch), scope, reason)
  }

  /** The point already says what was found. */
  predicate UpToDate(p: Point, scope: Scope) { p.scope == Some(scope) && p.version == Some(VERSION) }

  // ---- Counters --------------------------------------------------------------------------------------

  datatype Counter = Scanned | Active | SkippedNonactive | MailCount | DocumentCount | UnknownCount
                   | WouldChange | Updated | Unchanged | OrphanCount | MissingCanonicalCount
                   | InvalidIdentityCount | BrokenTreeCount | FailedBatches | ReadbackErrors | MissingActivePoints

  function ScopeCounter(scope: Scope): Counter {
    match scope case Mail => MailCount case Document => DocumentCount case Unknown => UnknownCount
  }

  /** How often a counter goes up for one point. */
  function Marks(v: Verdict, p: Point, c: Counter): nat {
    if c.Scanned? then 1
    else if v.Nonactive? then (if c.SkippedNonactive? then 1 else 0)
    else
      match c
      case OrphanCount => if v.orphan then 1 else 0
      case Active => if v.orphan then 0 else 1
      case MissingCanonicalCount => if v.missing then 1 else 0
      case InvalidIdentityCount => if v.invalid then 1 else 0
      case BrokenTreeCount => if v.broken then 1 else 0
      case Unchanged => if UpToDate(p, v.scope) then 1 else 0
      case WouldChange => if UpToDate(p, v.scope) then 0 else 1
      case _ => if c == ScopeCounter(v.scope) then 1 else 0
  }

  /** The marks a page of points makes on a counter of a kind. */
  function PageMarks(sql: Sql, points: seq<Point>, k: Kind, c: Counter): nat {
    if points == [] then 0
    else
      var last := points[|points| - 1];
      PageMarks(sql, points[..|points| - 1], k, c) + if last.kind == k then Marks(Judge(sql, last), last, c) else 0
  }

  function PageReasons(sql: Sql, points: seq<Point>, r: Reason): nat {
    if points == [] then 0
    else
      var v := Judge(sql, points[|points| - 1]);
      PageReasons(sql, points[..|points| - 1], r) + if v.Judged? && v.reason == Some(r) then 1 else 0
  }

  // ---- Balance ---------------------------------------------------------------------------------------

  type Tally = Counter -> nat
  type KindTally = (Kind, Counter) -> nat

  /** Every point scanned is skipped, an orphan or active; every orphan or active point has one scope,
      and either says so already or would change. */
  predicate Even(t: Tally) {
    && t(Scanned) == t(SkippedNonactive) + t(OrphanCount) + t(Active)
    && t(MailCount) + t(DocumentCount) + t(UnknownCount) == t(OrphanCount) + t(Active)
    && t(WouldChange) + t(Unchanged) == t(OrphanCount) + t(Active)
  }

  function OfKind(t: KindTally, k: Kind): Tally { c => t(k, c) }

  function AllReasons(reasons: Reason -> nat): nat {
    reasons(Orphan) + reasons(MissingCanonical) + reasons(InvalidIdentity) + reasons(SourceMismatch)
    + reasons(SourceMissing) + reasons(BrokenTree)
  }

  function Summed(kinds: KindTally, c: Counter): nat {
    kinds(ConceptPoint, c) + kinds(ChunkPoint, c) + kinds(OtherPoint, c)
  }

  /** The counters that are kept for each kind of point as well. */
  predicate PerKind(c: Counter) { !c.FailedBatches? && !c.ReadbackErrors? }

  ghost predicate Balanced(totals: Tally, kinds: KindTally, reasons: Reason -> nat) {
    && (forall c: Counter :: PerKind(c) ==> totals(c) == Summed(kinds, c))
    && (forall k: Kind :: Even(OfKind(kinds, k)))
    && AllReasons(reasons) == totals(UnknownCount)
  }

  lemma BalancedTotals(totals: Tally, kinds: KindTally, reasons: Reason -> nat)
    requires Balanced(totals, kinds, reasons)
    ensures Even(totals)
  {
    assert Even(OfKind(kinds, ConceptPoint)) && Even(OfKind(kinds, ChunkPoint)) && Even(OfKind(kinds, OtherPoint));
  }

  /** An unknown scope always has a reason, and a known one never. */
  lemma UnknownHasReason(sql: Sql, p: Point)
    ensures var v := Judge(sql, p); v.Judged? ==> (v.scope.Unknown? <==> v.reason.Some?)
  {}

  lemma EvenSum(t: Tally, a: Tally, b: Tally, counted: bool)
    requires Even(a) && Even(b)
    requires forall c :: t(c) == a(c) + if counted then b(c) else 0
    ensures Even(t)
  {}

  lemma {:induction false} PageIsEven(sql: Sql, points: seq<Point>, k: Kind)
    ensures Even(c => PageMarks(sql, points, k, c))
  {
    if points != [] {
      hide Judge, Marks, Even;
      var init, last := points[..|points| - 1], points[|points| - 1];
      PageIsEven(sql, init, k);
      VerdictIsEven(Judge(sql, last), last);
      EvenSum(c => PageMarks(sql, points, k, c), c => PageMarks(sql, init, k, c),
              c => Marks(Judge(sql, last), last, c), last.kind == k);
    }
  }

  lemma VerdictIsEven(v: Verdict, p: Point)
    ensures Even(c => Marks(v, p, c))
  {
    hide UpToDate;
  }

  lemma UnknownMark(v: Verdict, p: Point)
    ensures Marks(v, p, UnknownCount) == if v.Judged? && v.scope.Unknown? then 1 else 0
  {
    hide UpToDate;
  }

  lemma {:induction false} PageReasonsSum(sql: Sql, points: seq<Point>)
    ensures AllReasons(r => PageReasons(sql, points, r))
         == Summed((k, c) => PageMarks(sql, points, k, c), UnknownCount)
  {
    if points != [] {
      var init, last := points[..|points| - 1], points[|points| - 1];
      PageReasonsSum(sql, init);
      UnknownHasReason(sql, last);
      UnknownMark(Judge(sql, last), last);
      hide Judge, Marks;
    }
  }
}
