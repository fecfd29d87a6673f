/** The backfill: pages of points classified and counted in place, and their scopes written back. */
module MailBackfill {
  import opened Options
  import opened MailAncestry
  import opened MailScope

  /** The report of a run, its counters going up in place. */
  class Report {
    var totals: Tally
    var kinds: KindTally
    var reasons: Reason -> nat

    constructor ()
      ensures Fresh()
    {
      totals, kinds, reasons := c => 0, (k, c) => 0, r => 0;
    }

    ghost predicate Balances() reads this { Balanced(totals, kinds, reasons) }

    method Increment(k: Kind, c: Counter, n: nat)
      modifies this`totals, this`kinds
      ensures forall d :: totals(d) == old(totals)(d) + if d == c then n else 0
      ensures forall j, d :: kinds(j, d) == old(kinds)(j, d) + if j == k && d == c then n else 0
    {
      totals, kinds := Raised(totals, c, n), RaisedIn(kinds, k, c, n);
    }

    method AddReason(reason: Reason)
      modifies this`reasons
      ensures forall r :: reasons(r) == old(reasons)(r) + if r == reason then 1 else 0
    {
      var t := reasons;
      reasons := r => if r == reason then t(r) + 1 else t(r);
    }

    /** Count that a point was seen, and whether it is skipped, an orphan or active. */
    method CountStanding(v: Verdict, k: Kind)
      modifies this`totals, this`kinds
      ensures forall c :: totals(c) == old(totals)(c) + StandingMarks(v, c)
      ensures forall j, c :: kinds(j, c) == old(kinds)(j, c) + if j == k then StandingMarks(v, c) else 0
    {
      Increment(k, Scanned, 1);
      Increment(k, if v.Nonactive? then SkippedNonactive else if v.orphan then OrphanCount else Active, 1);
    }

    /** Count what is wrong with a point. */
    method CountFaults(v: Verdict, k: Kind)
      requires v.Judged?
      modifies this`totals, this`kinds
      ensures forall c :: totals(c) == old(totals)(c) + FaultMarks(v, c)
      ensures forall j, c :: kinds(j, c) == old(kinds)(j, c) + if j == k then FaultMarks(v, c) else 0
    {
      if v.missing { Increment(k, MissingCanonicalCount, 1); }
      if v.invalid { Increment(k, InvalidIdentityCount, 1); }
      if v.broken { Increment(k, BrokenTreeCount, 1); }
    }

    /** Count the scope of a point and whether it has it already. */
    method CountScope(v: Verdict, p: Point)
      requires v.Judged?
      modifies this
      ensures forall c :: totals(c) == old(totals)(c) + ScopeMarks(v, p, c)
      ensures forall j, c :: kinds(j, c) == old(kinds)(j, c) + if j == p.kind then ScopeMarks(v, p, c) else 0
      ensures forall r :: reasons(r) == old(reasons)(r) + ReasonMark(v, r)
    {
      hide UpToDate;
      Increment(p.kind, ScopeCounter(v.scope), 1);
      if v.scope.Unknown? && v.reason.Some? { AddReason(v.reason.value); }
      Increment(p.kind, if UpToDate(p, v.scope) then Unchanged else WouldChange, 1);
    }

    /** Count one point, in the order in which it is looked at. */
    method Count(v: Verdict, p: Point)
      modifies this
      ensures forall c :: totals(c) == old(totals)(c) + Marks(v, p, c)
      ensures forall k, c :: kinds(k, c) == old(kinds)(k, c) + if k == p.kind then Marks(v, p, c) else 0
      ensures forall r :: reasons(r) == old(reasons)(r) + ReasonMark(v, r)
    {
      hide StandingMarks, FaultMarks, ScopeMarks, Marks, UpToDate;
      MarksParts(v, p);
      CountStanding(v, p.kind);
      if v.Judged? {
        CountFaults(v, p.kind);
        CountScope(v, p);
      }
    }

    /** Classify a page. What is reached of it is counted in full, and a chunk that it stops on as
        scanned and active; only a page that is not interrupted has changes. */
    method PageScopes(sql: Sql, points: seq<Point>, fault: Fault) returns (changes: map<string, Scope>, good: bool)
      modifies this
      ensures good <==> !Interrupted(sql, points, fault)
      ensures good ==> changes == Changes(sql, points)
      ensures forall k, c :: kinds(k, c) == old(kinds)(k, c) + PageMarks(sql, Reached(sql, points, fault), k, c)
                                            + if k.ChunkPoint? then HalfMarks(sql, points, fault, c) else 0
      ensures forall c :: totals(c) == old(totals)(c) + PageTotals(sql, Reached(sql, points, fault), c)
                                       + HalfMarks(sql, points, fault, c)
      ensures forall r :: reasons(r) == old(reasons)(r) + PageReasons(sql, Reached(sql, points, fault), r)
    {
      hide Judge, Marks, UpToDate, PageMarks, PageTotals, PageReasons, Changes, Queried;
      changes := map[];
      NoPoints(sql, points);
      if fault.Opening? { return changes, false; }
      var i := 0;
      while i < |points|
        invariant 0 <= i <= |points| && changes == Changes(sql, points[..i])
        invariant forall k, c :: kinds(k, c) == old(kinds)(k, c) + PageMarks(sql, points[..i], k, c)
        invariant forall c :: totals(c) == old(totals)(c) + PageTotals(sql, points[..i], c)
        invariant forall r :: reasons(r) == old(reasons)(r) + PageReasons(sql, points[..i], r)
        invariant StopsOn(sql, points, fault) ==> i <= fault.at
      {
        PageSnoc(sql, points, i);
        if fault == OnPoint(i) && Queried(sql, points[i]) {
          QueriedIsChunk(sql, points[i]);
          Increment(points[i].kind, Scanned, 1);
          Increment(points[i].kind, Active, 1);
          return changes, false;
        }
        var v := Judge(sql, points[i]);
        ReasonsAreUnknown(sql, points[i]);
        Count(v, points[i]);
        if v.Judged? && !UpToDate(points[i], v.scope) { changes := changes[points[i].id := v.scope]; }
        i := i + 1;
      }
      assert points[..i] == points;
      return changes, !fault.Closing?;
    }

    /** Write the changes of a page, kind by kind; writing those of one kind may fail, and then those of
        the kinds before it are written and counted. */
    method PatchPage(points: seq<Point>, changes: map<string, Scope>, fail: Option<Kind>)
        returns (after: seq<Point>, good: bool)
      modifies this`totals, this`kinds
      ensures good <==> WrittenKinds(points, changes, fail) == 3
      ensures after == PatchedUpTo(points, changes, WrittenKinds(points, changes, fail))
      ensures Balanced(old(totals), old(kinds), reasons) ==> Balances()
      ensures Credited(old(totals), old(kinds), totals, kinds, points, changes, WrittenKinds(points, changes, fail))
    {
      hide Balanced, PatchedUpTo, OfType, Patched, WrittenKinds, Credited;
      after := points;
      PatchedAll(points, changes);
      NoneWritten(points, changes, fail);
      NoneCredited(totals, kinds, points, changes);
      var order := [ConceptPoint, ChunkPoint, OtherPoint];
      var i := 0;
      while i < |order|
        invariant 0 <= i <= |order| && i <= WrittenKinds(points, changes, fail)
        invariant after == PatchedUpTo(points, changes, i)
        invariant Balanced(old(totals), old(kinds), reasons) ==> Balances()
        invariant Credited(old(totals), old(kinds), totals, kinds, points, changes, i)
      {
        var patch := OfType(points, changes, order[i]);
        PatchMore(points, changes, i);
        OneKindWritten(points, changes, fail, order[i]);
        ghost var t, m := totals, kinds;
        if patch != map[] {
          if fail == Some(order[i]) { return after, false; }
          after := Patched(after, patch);
          Increment(order[i], Updated, |patch|);
          StillBalanced(t, m, reasons, totals, kinds, order[i], Updated, |patch|);
        }
        MoreCredited(old(totals), old(kinds), t, m, totals, kinds, points, changes, order[i]);
        i := i + 1;
      }
      return after, true;
    }

    /** Classify one page and write its changes, unless either fails. */
    method TryPage(sql: Sql, page: Page, apply: bool) returns (next: Page, good: bool)
      modifies this
      ensures good <==> !Fails(sql, page, apply)
      ensures forall c :: totals(c) == old(totals)(c) + if PerKind(c) then PageCount(sql, page, apply, c) else 0
      ensures !Stops(sql, page) && Balanced(old(totals), old(kinds), old(reasons)) ==> Balances()
      ensures good ==> next.points == Rewritten(sql, page.points, apply)
      ensures Interrupted(sql, page.points, page.fault) ==> next.points == page.points
    {
      hide Balanced, PageMarks, PageReasons, PageTotals, Changes, Patched, PatchedUpTo, OfType, Updates, Reached, WrittenKinds, Queried, PageCount;
      ghost var t, m, r := totals, kinds, reasons;
      var changes;
      changes, good := PageScopes(sql, page.points, page.fault);
      next := page;
      ghost var t1 := totals;
      ReachedBalances(sql, page, t, m, r, totals, kinds, reasons);
      PageCounts(sql, page, apply, t, t1);
      NothingPatched(page.points);
      NothingWritten(page.points, page.patchFail);
      NoneWritten(page.points, Changes(sql, page.points), page.patchFail);
      PatchedAll(page.points, changes);
      if good && apply && changes != map[] {
        var after;
        after, good := PatchPage(page.points, changes, page.patchFail);
        next := page.(points := after);
      }
    }

    /** One page, with what is counted when it fails. */
    method DoPage(sql: Sql, page: Page, apply: bool) returns (next: Page)
      modifies this
      ensures forall c :: totals(c) == old(totals)(c) + PageCount(sql, page, apply, c)
      ensures Balanced(old(totals), old(kinds), old(reasons)) ==> (Balances() <==> !Stops(sql, page))
      ensures Handled(sql, page, next, apply)
    {
      hide Balanced, Fails, Rewritten, Stops, Interrupted, PageTotals, HalfMarks, Reached, Updates, WrittenKinds, Changes;
      ghost var t0, m0, r0 := totals, kinds, reasons;
      var good;
      next, good := TryPage(sql, page, apply);
      ghost var t := totals;
      if !good {
        if page.readback { totals := Raised(totals, ReadbackErrors, 1); }
        totals := Raised(totals, FailedBatches, 1);
      }
      FailuresKeepBalance(t, totals, kinds, reasons);
      StopsInterrupts(sql, page);
      assert forall c :: PerKind(c) ==> totals(c) == t(c);
      StopUnbalances(sql, page, apply, t0, m0, r0, totals, kinds, reasons);
    }

    /** A run over the pages of the index, in place. At the end the counters balance exactly when no page
        stopped on a point; a page that failed otherwise leaves them balanced. The counters are those of
        all pages, and the pages that did not fail hold all that should change. */
    method Backfill(sql: Sql, pages: array<Page>, apply: bool)
      requires Fresh()
      modifies this, pages
      ensures Balances() <==> forall i :: 0 <= i < pages.Length ==> !Stops(sql, old(pages[i]))
      ensures Even(totals) <==> forall i :: 0 <= i < pages.Length ==> !Stops(sql, old(pages[i]))
      ensures Unplaced(totals) == Stopped(sql, old(pages[..]))
      ensures forall c :: totals(c) == AllPages(sql, old(pages[..]), apply, c)
      ensures forall i :: 0 <= i < pages.Length ==>
                && (!Fails(sql, old(pages[i]), apply) ==> pages[i].points == Rewritten(sql, old(pages[i].points), apply))
                && (Stops(sql, old(pages[i])) ==> pages[i].points == old(pages[i].points))
    {
      hide Balanced, Rewritten, Zero, PageCount, Stops, Fails, Even, Interrupted;
      StartBalanced(sql, apply, totals, kinds, reasons);
      ghost var was := pages[..];
      assert was[..0] == [];
      var i := 0;
      while i < pages.Length
        invariant 0 <= i <= pages.Length
        invariant Stopped(sql, was[..i]) == 0 ==> Balances()
        invariant forall c :: totals(c) == AllPages(sql, was[..i], apply, c)
        invariant forall j :: i <= j < pages.Length ==> pages[j] == was[j]
        invariant forall j :: 0 <= j < i ==> Handled(sql, was[j], pages[j], apply)
      {
        AllPagesSnoc(sql, was, apply, i);
        StopsInterrupts(sql, was[i]);
        pages[i] := DoPage(sql, pages[i], apply);
        i := i + 1;
      }
      assert was[..i] == was;
      StoppedIsUnplaced(sql, was, apply, totals);
      NoneStopped(sql, was);
      BalancedIsPlaced(totals, kinds, reasons);
    }

    ghost predicate Fresh() reads this { Zero(totals, kinds, reasons) }
  }

  function Rewritten(sql: Sql, points: seq<Point>, apply: bool): seq<Point> {
    if apply then Patched(points, Changes(sql, points)) else points
  }

  lemma NothingPatched(points: seq<Point>)
    ensures Patched(points, map[]) == points
  {}

  /** How the classification of a page fails, if it does: before its first point, while it is at work on
      one, or once it has them all. */
  datatype Fault = NoFault | Opening | OnPoint(at: nat) | Closing

  /** A page of the index, and how the work on it fails, if it does: while it is classified or on writing
      which kind, and whether the failure is one of reading back. */
  datatype Page = Page(points: seq<Point>, fault: Fault, patchFail: Option<Kind>, readback: bool)

  /** Only an active chunk can fail by itself: its projection is looked up in SQL. */
  predicate StopsOn(sql: Sql, points: seq<Point>, fault: Fault) {
    fault.OnPoint? && fault.at < |points| && Queried(sql, points[fault.at])
  }

  predicate Stops(sql: Sql, page: Page) { StopsOn(sql, page.points, page.fault) }

  predicate Interrupted(sql: Sql, points: seq<Point>, fault: Fault) {
    fault.Opening? || fault.Closing? || StopsOn(sql, points, fault)
  }

  /** The points of a page that are counted in full. */
  function Reached(sql: Sql, points: seq<Point>, fault: Fault): seq<Point> {
    if fault.Opening? then [] else if StopsOn(sql, points, fault) then points[..fault.at] else points
  }

  function HalfMarks(sql: Sql, points: seq<Point>, fault: Fault, c: Counter): nat {
    if StopsOn(sql, points, fault) && (c.Scanned? || c.Active?) then 1 else 0
  }

  predicate Fails(sql: Sql, page: Page, apply: bool) {
    || Interrupted(sql, page.points, page.fault)
    || (apply && WrittenKinds(page.points, Changes(sql, page.points), page.patchFail) < 3)
  }

  /** What a page adds to a counter. */
  function PageCount(sql: Sql, page: Page, apply: bool, c: Counter): nat {
    match c
    case FailedBatches => if Fails(sql, page, apply) then 1 else 0
    case ReadbackErrors => if Fails(sql, page, apply) && page.readback then 1 else 0
    case Updated =>
      var changes := Changes(sql, page.points);
      if apply && !Interrupted(sql, page.points, page.fault)
      then Updates(page.points, changes, WrittenKinds(page.points, changes, page.patchFail)) else 0
    case _ =>
      PageTotals(sql, Reached(sql, page.points, page.fault), c) + HalfMarks(sql, page.points, page.fault, c)
  }

  function AllPages(sql: Sql, pages: seq<Page>, apply: bool, c: Counter): nat {
    if pages == [] then 0
    else AllPages(sql, pages[..|pages| - 1], apply, c) + PageCount(sql, pages[|pages| - 1], apply, c)
  }

  /** How many pages stop on a point. */
  function Stopped(sql: Sql, pages: seq<Page>): nat {
    if pages == [] then 0
    else Stopped(sql, pages[..|pages| - 1]) + if Stops(sql, pages[|pages| - 1]) then 1 else 0
  }

  predicate Handled(sql: Sql, page: Page, next: Page, apply: bool) {
    && (!Fails(sql, page, apply) ==> next.points == Rewritten(sql, page.points, apply))
    && (Stops(sql, page) ==> next.points == page.points)
  }

  lemma StopsInterrupts(sql: Sql, page: Page)
    ensures Stops(sql, page) ==> Interrupted(sql, page.points, page.fault)
  {}

  lemma AllPagesSnoc(sql: Sql, pages: seq<Page>, apply: bool, i: nat)
    requires i < |pages|
    ensures forall c :: AllPages(sql, pages[..i + 1], apply, c)
                     == AllPages(sql, pages[..i], apply, c) + PageCount(sql, pages[i], apply, c)
    ensures Stopped(sql, pages[..i + 1]) == Stopped(sql, pages[..i]) + if Stops(sql, pages[i]) then 1 else 0
  {
    hide PageCount, Stops;
    var more := pages[..i + 1];
    assert more[..|more| - 1] == pages[..i];
  }

  lemma {:induction false} NoneStopped(sql: Sql, pages: seq<Page>)
    ensures Stopped(sql, pages) == 0 <==> forall i :: 0 <= i < |pages| ==> !Stops(sql, pages[i])
  {
    hide Stops;
    if pages != [] {
      var n := |pages| - 1;
      NoneStopped(sql, pages[..n]);
      assert forall i :: 0 <= i < n ==> pages[..n][i] == pages[i];
    }
  }

  function Raised(t: Tally, c: Counter, n: nat): Tally { d => if d == c then t(d) + n else t(d) }

  function RaisedIn(m: KindTally, k: Kind, c: Counter, n: nat): KindTally {
    (j, d) => if j == k && d == c then m(j, d) + n else m(j, d)
  }

  // ---- Writing back ----------------------------------------------------------------------------------

  function Written(p: Point, patch: map<string, Scope>): Point {
    if p.id in patch then p.(scope := Some(patch[p.id]), version := Some(VERSION)) else p
  }

  function Patched(points: seq<Point>, patch: map<string, Scope>): seq<Point> {
    seq(|points|, i requires 0 <= i < |points| => Written(points[i], patch))
  }

  predicate Among(points: seq<Point>, id: string, k: Kind) {
    exists i :: 0 <= i < |points| && points[i].id == id && points[i].kind == k
  }

  function OfType(points: seq<Point>, changes: map<string, Scope>, k: Kind): map<string, Scope> {
    map id | id in changes && Among(points, id, k) :: changes[id]
  }

  /** The page once the changes of the first `n` kinds are written. */
  function PatchedUpTo(points: seq<Point>, changes: map<string, Scope>, n: nat): seq<Point> {
    Patched(points, map id | id in changes
                             && ((n > 0 && Among(points, id, ConceptPoint)) || (n > 1 && Among(points, id, ChunkPoint))
                                 || (n > 2 && Among(points, id, OtherPoint))) :: changes[id])
  }

  function Turn(k: Kind): nat {
    match k case ConceptPoint => 0 case ChunkPoint => 1 case OtherPoint => 2
  }

  /** How many kinds are written before writing fails. */
  function WrittenKinds(points: seq<Point>, changes: map<string, Scope>, fail: Option<Kind>): nat {
    if fail.Some? && OfType(points, changes, fail.value) != map[] then Turn(fail.value) else 3
  }

  /** How many scopes the first `n` kinds have to write. */
  function Updates(points: seq<Point>, changes: map<string, Scope>, n: nat): nat {
    (if n > 0 then |OfType(points, changes, ConceptPoint)| else 0)
    + (if n > 1 then |OfType(points, changes, ChunkPoint)| else 0)
    + (if n > 2 then |OfType(points, changes, OtherPoint)| else 0)
  }

  lemma NoneWritten(points: seq<Point>, changes: map<string, Scope>, fail: Option<Kind>)
    ensures Updates(points, changes, 0) == 0 && 0 <= WrittenKinds(points, changes, fail) <= 3
  {}

  lemma OneKindWritten(points: seq<Point>, changes: map<string, Scope>, fail: Option<Kind>, k: Kind)
    ensures var patch, n := OfType(points, changes, k), WrittenKinds(points, changes, fail);
      && (patch != map[] && fail == Some(k) ==> n == Turn(k))
      && (n == Turn(k) ==> patch != map[] && fail == Some(k))
  {
    hide OfType;
  }

  /** What classifying a page adds to the totals; the scopes written come on top. */
  lemma PageCounts(sql: Sql, page: Page, apply: bool, t: Tally, t': Tally)
    requires forall c :: t'(c) == t(c) + PageTotals(sql, Reached(sql, page.points, page.fault), c)
                                    + HalfMarks(sql, page.points, page.fault, c)
    ensures forall c :: PerKind(c) && !c.Updated? ==> t'(c) == t(c) + PageCount(sql, page, apply, c)
    ensures forall c :: !PerKind(c) || c.Updated? ==> t'(c) == t(c)
    ensures var changes := Changes(sql, page.points);
      PageCount(sql, page, apply, Updated) == if apply && !Interrupted(sql, page.points, page.fault)
        then Updates(page.points, changes, WrittenKinds(page.points, changes, page.patchFail)) else 0
  {
    NoFailureMarks(sql, Reached(sql, page.points, page.fault));
    hide PageTotals, Reached, Changes, Updates, WrittenKinds, Queried, Interrupted;
  }

  /** The scopes of the first `n` kinds are counted as updates, per kind and in total, and nothing else. */
  ghost predicate Credited(t: Tally, m: KindTally, t': Tally, m': KindTally,
                           points: seq<Point>, changes: map<string, Scope>, n: nat) {
    && (forall c :: t'(c) == t(c) + if c.Updated? then Updates(points, changes, n) else 0)
    && (forall k, c :: m'(k, c) == m(k, c) + if c.Updated? && Turn(k) < n then |OfType(points, changes, k)| else 0)
  }

  lemma NoneCredited(t: Tally, m: KindTally, points: seq<Point>, changes: map<string, Scope>)
    ensures Credited(t, m, t, m, points, changes, 0)
  {
    hide OfType;
  }

  lemma MoreCredited(t: Tally, m: KindTally, t1: Tally, m1: KindTally, t2: Tally, m2: KindTally,
                     points: seq<Point>, changes: map<string, Scope>, k: Kind)
    requires Credited(t, m, t1, m1, points, changes, Turn(k))
    requires var n := |OfType(points, changes, k)|;
      && (forall c :: t2(c) == t1(c) + if c.Updated? then n else 0)
      && (forall j, c :: m2(j, c) == m1(j, c) + if j == k && c.Updated? then n else 0)
    ensures Credited(t, m, t2, m2, points, changes, Turn(k) + 1)
  {
    hide OfType;
  }

  lemma NothingWritten(points: seq<Point>, fail: Option<Kind>)
    ensures WrittenKinds(points, map[], fail) == 3 && Updates(points, map[], 3) == 0
  {
    forall k: Kind ensures OfType(points, map[], k) == map[] {}
  }

  lemma PatchMore(points: seq<Point>, changes: map<string, Scope>, i: nat)
    requires i < 3
    ensures var patch := OfType(points, changes, [ConceptPoint, ChunkPoint, OtherPoint][i]);
      && PatchedUpTo(points, changes, i + 1) == Patched(PatchedUpTo(points, changes, i), patch)
      && (patch == map[] ==> PatchedUpTo(points, changes, i + 1) == PatchedUpTo(points, changes, i))
  {
    hide Among;
    var patch := OfType(points, changes, [ConceptPoint, ChunkPoint, OtherPoint][i]);
    assert patch == map[] ==> forall id :: id !in patch;
  }

  lemma PatchedAll(points: seq<Point>, changes: map<string, Scope>)
    ensures PatchedUpTo(points, changes, 3) == Patched(points, changes)
    ensures PatchedUpTo(points, changes, 0) == points
  {
    forall i | 0 <= i < |points| ensures Among(points, points[i].id, points[i].kind) {}
    hide Among;
  }

  // ---- Balance over pages ----------------------------------------------------------------------------

  ghost predicate Zero(t: Tally, m: KindTally, r: Reason -> nat) {
    (forall c :: t(c) == 0) && (forall k, c :: m(k, c) == 0) && (forall x :: r(x) == 0)
  }

  lemma StartBalanced(sql: Sql, apply: bool, t: Tally, m: KindTally, r: Reason -> nat)
    requires Zero(t, m, r)
    ensures Balanced(t, m, r) && forall c :: t(c) == AllPages(sql, [], apply, c)
  {}

  /** Counters outside the equations may go up together with their total. */
  lemma StillBalanced(t: Tally, m: KindTally, r: Reason -> nat, t': Tally, m': KindTally, k: Kind, c: Counter, n: nat)
    requires c == Updated || c == MissingActivePoints
    requires forall d :: t'(d) == t(d) + if d == c then n else 0
    requires forall j, d :: m'(j, d) == m(j, d) + if j == k && d == c then n else 0
    ensures Balanced(t, m, r) ==> Balanced(t', m', r)
  {
    if Balanced(t, m, r) {
      forall j: Kind ensures Even(OfKind(m', j)) { assert Even(OfKind(m, j)); }
    }
  }

  /** What the points reached add keeps the balance, unless a half counted one comes with them. */
  lemma ReachedBalances(sql: Sql, page: Page, t: Tally, m: KindTally, r: Reason -> nat,
                        t': Tally, m': KindTally, r': Reason -> nat)
    requires var points := Reached(sql, page.points, page.fault);
      && (forall c :: t'(c) == t(c) + PageTotals(sql, points, c) + HalfMarks(sql, page.points, page.fault, c))
      && (forall k, c :: m'(k, c) == m(k, c) + PageMarks(sql, points, k, c)
                           + if k.ChunkPoint? then HalfMarks(sql, page.points, page.fault, c) else 0)
      && (forall x :: r'(x) == r(x) + PageReasons(sql, points, x))
    ensures !Stops(sql, page) && Balanced(t, m, r) ==> Balanced(t', m', r')
  {
    hide PageMarks, PageReasons, Reached, Queried;
    var points := Reached(sql, page.points, page.fault);
    if !Stops(sql, page) && Balanced(t, m, r) {
      PageReasonsSum(sql, points);
      forall k: Kind ensures Even(OfKind(m', k)) {
        assert Even(OfKind(m, k));
        PageIsEven(sql, points, k);
      }
      forall c: Counter | PerKind(c) ensures t'(c) == Summed(m', c) {
        assert t(c) == Summed(m, c);
      }
    }
  }

  lemma FailuresKeepBalance(t: Tally, t': Tally, m: KindTally, r: Reason -> nat)
    requires forall c :: PerKind(c) ==> t'(c) == t(c)
    ensures Balanced(t, m, r) ==> Balanced(t', m, r)
  {}

  /** The points that are counted as orphans or active and have been given no scope. */
  function Unplaced(t: Tally): int {
    t(OrphanCount) + t(Active) - t(MailCount) - t(DocumentCount) - t(UnknownCount)
  }

  lemma BalancedIsPlaced(t: Tally, m: KindTally, r: Reason -> nat)
    ensures Balanced(t, m, r) ==> Even(t)
    ensures Even(t) ==> Unplaced(t) == 0
  {
    if Balanced(t, m, r) { BalancedTotals(t, m, r); }
  }

  lemma PageUnplaced(sql: Sql, page: Page, apply: bool)
    ensures Unplaced(c => PageCount(sql, page, apply, c)) == if Stops(sql, page) then 1 else 0
  {
    hide PageMarks, Reached, Fails, Updates, WrittenKinds, Changes, Interrupted, Queried;
    var points := Reached(sql, page.points, page.fault);
    PageIsEven(sql, points, ConceptPoint);
    PageIsEven(sql, points, ChunkPoint);
    PageIsEven(sql, points, OtherPoint);
  }

  /** A page that stops on a point takes the balance away. */
  lemma StopUnbalances(sql: Sql, page: Page, apply: bool, t: Tally, m: KindTally, r: Reason -> nat,
                       t': Tally, m': KindTally, r': Reason -> nat)
    requires forall c :: t'(c) == t(c) + PageCount(sql, page, apply, c)
    ensures Stops(sql, page) && Balanced(t, m, r) ==> !Balanced(t', m', r')
  {
    hide PageCount, Stops, Balanced;
    PageUnplaced(sql, page, apply);
    BalancedIsPlaced(t, m, r);
    BalancedIsPlaced(t', m', r');
  }

  /** A page of one active chunk can stop on it, and then has counted it without a scope. */
  lemma OneChunkStops(apply: bool) returns (sql: Sql, page: Page)
    ensures |page.points| == 1 && Stops(sql, page)
    ensures Unplaced(c => PageCount(sql, page, apply, c)) == 1
  {
    var chunk := Point("p", ChunkPoint, Some("d"), None, Some(0), Some("g"), None, None, None);
    sql := Sql({"d"}, map["d" := "g"], map[], map[("d", 0) := None], map[],
               (doc, slug, generation) => "", (doc, generation, index, id, fragment) => true);
    page := Page([chunk], OnPoint(0), None, false);
    PageUnplaced(sql, page, apply);
  }

  /** Each page that stops leaves one point without a scope, and nothing ever makes up for it. */
  lemma {:induction false} StoppedIsUnplaced(sql: Sql, pages: seq<Page>, apply: bool, t: Tally)
    requires forall c :: t(c) == AllPages(sql, pages, apply, c)
    ensures Unplaced(t) == Stopped(sql, pages)
  {
    hide PageCount, Stops;
    if pages != [] {
      var n := |pages| - 1;
      StoppedIsUnplaced(sql, pages[..n], apply, c => AllPages(sql, pages[..n], apply, c));
      PageUnplaced(sql, pages[n], apply);
    }
  }

  /** An active chunk: its projection is looked up in SQL while it is classified. */
  predicate Queried(sql: Sql, p: Point) {
    Known(sql, p) && p.generation == sql.Generation(p.doc.value) && p.kind.ChunkPoint? && p.chunk.Some?
  }

  function PageTotals(sql: Sql, points: seq<Point>, c: Counter): nat {
    PageMarks(sql, points, ConceptPoint, c) + PageMarks(sql, points, ChunkPoint, c)
    + PageMarks(sql, points, OtherPoint, c)
  }

  /** The scopes to write, by point id: of every point that was judged and does not say so yet. */
  function Changes(sql: Sql, points: seq<Point>): map<string, Scope> {
    if points == [] then map[]
    else
      var before := Changes(sql, points[..|points| - 1]);
      var p := points[|points| - 1];
      var v := Judge(sql, p);
      if v.Judged? && !UpToDate(p, v.scope) then before[p.id := v.scope] else before
  }

  lemma NoPoints(sql: Sql, points: seq<Point>)
    ensures points[..0] == [] && Changes(sql, []) == map[]
    ensures forall k, c :: PageMarks(sql, [], k, c) == 0
    ensures forall c :: PageTotals(sql, [], c) == 0
    ensures forall r :: PageReasons(sql, [], r) == 0
  {}

  lemma QueriedIsChunk(sql: Sql, p: Point)
    ensures Queried(sql, p) ==> p.kind.ChunkPoint?
  {}

  lemma PageSnoc(sql: Sql, points: seq<Point>, i: nat)
    requires i < |points|
    ensures var v := Judge(sql, points[i]);
      && (forall k, c :: PageMarks(sql, points[..i + 1], k, c)
            == PageMarks(sql, points[..i], k, c) + if points[i].kind == k then Marks(v, points[i], c) else 0)
      && (forall c :: PageTotals(sql, points[..i + 1], c) == PageTotals(sql, points[..i], c) + Marks(v, points[i], c))
      && (forall r :: PageReasons(sql, points[..i + 1], r)
            == PageReasons(sql, points[..i], r) + if v.Judged? && v.reason == Some(r) then 1 else 0)
      && Changes(sql, points[..i + 1])
           == (if v.Judged? && !UpToDate(points[i], v.scope)
               then Changes(sql, points[..i])[points[i].id := v.scope] else Changes(sql, points[..i]))
  {
    hide Judge, Marks, UpToDate;
    var more := points[..i + 1];
    assert more[..|more| - 1] == points[..i] && more[|more| - 1] == points[i];
  }

  lemma ReasonsAreUnknown(sql: Sql, p: Point)
    ensures var v := Judge(sql, p);
      forall r :: ReasonMark(v, r) == if v.Judged? && v.reason == Some(r) then 1 else 0
  {
    UnknownHasReason(sql, p);
    hide Judge;
  }

  lemma {:induction false} NoFailureMarks(sql: Sql, points: seq<Point>)
    ensures forall c: Counter :: c.FailedBatches? || c.ReadbackErrors? || c.Updated? ==> PageTotals(sql, points, c) == 0
  {
    hide Judge, UpToDate;
    if points != [] { NoFailureMarks(sql, points[..|points| - 1]); }
  }

  function StandingMarks(v: Verdict, c: Counter): nat {
    if c.Scanned? || c == (if v.Nonactive? then SkippedNonactive else if v.orphan then OrphanCount else Active) then 1 else 0
  }

  function FaultMarks(v: Verdict, c: Counter): nat
    requires v.Judged?
  {
    if (c.MissingCanonicalCount? && v.missing) || (c.InvalidIdentityCount? && v.invalid)
       || (c.BrokenTreeCount? && v.broken) then 1 else 0
  }

  function ScopeMarks(v: Verdict, p: Point, c: Counter): nat
    requires v.Judged?
  {
    if c == ScopeCounter(v.scope) || c == (if UpToDate(p, v.scope) then Unchanged else WouldChange) then 1 else 0
  }

  function ReasonMark(v: Verdict, r: Reason): nat {
    if v.Judged? && v.scope.Unknown? && v.reason == Some(r) then 1 else 0
  }

  lemma MarksParts(v: Verdict, p: Point)
    ensures forall c ::
              Marks(v, p, c) == StandingMarks(v, c) + if v.Judged? then FaultMarks(v, c) + ScopeMarks(v, p, c) else 0
  {
    hide UpToDate;
  }

  // ---- A second run ----------------------------------------------------------------------------------

  predicate DistinctIds(points: seq<Point>) {
    forall i, j :: 0 <= i < j < |points| ==> points[i].id != points[j].id
  }

  /** What is written back plays no part in the verdict. */
  lemma SameVerdict(sql: Sql, p: Point, patch: map<string, Scope>)
    ensures Judge(sql, Written(p, patch)) == Judge(sql, p)
  {}

  lemma {:induction false} ChangesAt(sql: Sql, points: seq<Point>, i: nat)
    requires DistinctIds(points) && i < |points|
    ensures var v := Judge(sql, points[i]);
      var changes := Changes(sql, points);
      && (points[i].id in changes <==> v.Judged? && !UpToDate(points[i], v.scope))
      && (points[i].id in changes ==> changes[points[i].id] == v.scope)
    decreases |points|
  {
    hide Judge, UpToDate;
    var n := |points| - 1;
    if i < n {
      ChangesAt(sql, points[..n], i);
      assert points[..n][i] == points[i] && points[i].id != points[n].id;
    } else {
      ChangesElsewhere(sql, points[..n], points[n].id);
    }
  }

  lemma {:induction false} ChangesElsewhere(sql: Sql, points: seq<Point>, id: string)
    requires forall i :: 0 <= i < |points| ==> points[i].id != id
    ensures id !in Changes(sql, points)
  {
    hide Judge, UpToDate;
    if points != [] { ChangesElsewhere(sql, points[..|points| - 1], id); }
  }

  lemma {:induction false} NothingToChange(sql: Sql, points: seq<Point>)
    requires forall i :: 0 <= i < |points| ==>
               Judge(sql, points[i]).Judged? ==> UpToDate(points[i], Judge(sql, points[i]).scope)
    ensures Changes(sql, points) == map[]
  {
    hide Judge, UpToDate;
    if points != [] { NothingToChange(sql, points[..|points| - 1]); }
  }

  /** Once the changes of a page are written, classifying it again against the same SQL state finds
      the same scopes and proposes nothing. */
  lemma WrittenIsQuiet(sql: Sql, points: seq<Point>)
    requires DistinctIds(points)
    ensures var after := Rewritten(sql, points, true);
      && Changes(sql, after) == map[]
      && forall i :: 0 <= i < |points| ==> Judge(sql, after[i]) == Judge(sql, points[i])
  {
    var changes := Changes(sql, points);
    var after := Patched(points, changes);
    forall i | 0 <= i < |points|
      ensures Judge(sql, after[i]) == Judge(sql, points[i])
      ensures Judge(sql, after[i]).Judged? ==> UpToDate(after[i], Judge(sql, after[i]).scope)
    {
      SameVerdict(sql, points[i], changes);
      ChangesAt(sql, points, i);
      hide Judge, Changes;
    }
    hide Judge, Changes, UpToDate;
    NothingToChange(sql, after);
  }
}
