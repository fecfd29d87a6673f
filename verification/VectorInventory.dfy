/** The inventory of a vector collection, read a page at a time: its count and digest depend on the
    points alone, and reading it ends. */
module VectorInventory {
  import opened Options
  import opened JsonText
  import opened KeySort

  // ---- The text that is hashed -------------------------------------------------------------------------

  function Itself(line: string): string { line }

  function Join(lines: seq<string>): string {
    if lines == [] then "" else if |lines| == 1 then lines[0] else lines[0] + "\n" + Join(lines[1..])
  }

  /** A line: not empty, and within one line. */
  predicate Line(s: string) { s != "" && forall i :: 0 <= i < |s| ==> s[i] != '\n' }

  predicate Breaks(x: string) { x == "" || x[0] == '\n' }

  lemma LineHead(a: string, r: string)
    requires Breaks(r) && forall i :: 0 <= i < |a| ==> a[i] != '\n'
    ensures Breaks(a + r) <==> a == ""
    ensures a == "" ==> a + r == r
    ensures a != "" ==> (a + r)[0] == a[0] && (a + r)[1..] == a[1..] + r && a == [a[0]] + a[1..]
  {}

  lemma {:induction false} FirstLine(a: string, b: string, r: string, t: string)
    requires (forall i :: 0 <= i < |a| ==> a[i] != '\n') && (forall i :: 0 <= i < |b| ==> b[i] != '\n')
    requires Breaks(r) && Breaks(t) && a + r == b + t
    ensures a == b && r == t
    decreases |a|
  {
    hide Breaks;
    LineHead(a, r);
    LineHead(b, t);
    if a != "" { FirstLine(a[1..], b[1..], r, t); }
  }

  /** The lines after the first, with the break before them. */
  function Rest(lines: seq<string>): string { if |lines| <= 1 then "" else "\n" + Join(lines[1..]) }

  lemma JoinHead(lines: seq<string>)
    ensures lines != [] ==> Join(lines) == lines[0] + Rest(lines) && Breaks(Rest(lines))
    ensures Rest(lines) == "" <==> |lines| <= 1
    ensures |lines| > 1 ==> Rest(lines)[1..] == Join(lines[1..])
  {
    if |lines| == 1 { assert lines[0] + "" == lines[0]; }
    if |lines| > 1 { assert lines[0] + "\n" + Join(lines[1..]) == lines[0] + ("\n" + Join(lines[1..])); }
  }

  lemma JoinEmpty(lines: seq<string>)
    requires forall x :: x in lines ==> Line(x)
    ensures Join(lines) == "" <==> lines == []
  {
    if lines != [] {
      assert lines[0] in lines;
      JoinHead(lines);
    }
    hide Rest, Breaks;
  }

  lemma SameHead(a: seq<string>, b: seq<string>)
    requires (forall x :: x in a ==> Line(x)) && (forall x :: x in b ==> Line(x))
    requires Join(a) == Join(b)
    ensures a == [] <==> b == []
    ensures a != [] ==> a[0] == b[0] && (|a| > 1 <==> |b| > 1)
    ensures |a| > 1 ==> Join(a[1..]) == Join(b[1..])
  {
    JoinHead(a);
    JoinHead(b);
    JoinEmpty(a);
    JoinEmpty(b);
    if a != [] {
      assert a[0] in a && b[0] in b;
      hide Join, Rest, Breaks;
      FirstLine(a[0], b[0], Rest(a), Rest(b));
    }
  }

  lemma {:induction false} JoinUnique(a: seq<string>, b: seq<string>)
    requires (forall x :: x in a ==> Line(x)) && (forall x :: x in b ==> Line(x))
    requires Join(a) == Join(b)
    ensures a == b
  {
    SameHead(a, b);
    hide Join, Line;
    if |a| > 1 {
      JoinUnique(a[1..], b[1..]);
      assert a == [a[0]] + a[1..] && b == [b[0]] + b[1..];
    }
  }

  // ---- Points --------------------------------------------------------------------------------------------

  function Texts(points: seq<Json>): seq<string> {
    if points == [] then [] else [Dump(points[0], COMPACT)] + Texts(points[1..])
  }

  /** The text whose hash is the digest of an inventory. */
  function Digested(points: seq<Json>): string { Join(Sorted(Texts(points), Itself)) }

  predicate AllValid(points: seq<Json>) { forall i :: 0 <= i < |points| ==> Valid(points[i]) }

  lemma {:induction false} TextsJoin(a: seq<Json>, b: seq<Json>)
    ensures Texts(a + b) == Texts(a) + Texts(b)
  {
    hide Dump;
    if a == [] {
      assert a + b == b;
    } else {
      assert (a + b)[1..] == a[1..] + b;
      TextsJoin(a[1..], b);
    }
  }

  lemma {:induction false} TextsAt(points: seq<Json>)
    ensures |Texts(points)| == |points|
    ensures forall i :: 0 <= i < |points| ==> Texts(points)[i] == Dump(points[i], COMPACT)
  {
    hide Dump;
    if points != [] { TextsAt(points[1..]); }
  }

  lemma DropOne(points: seq<Json>, j: nat)
    requires j < |points|
    ensures multiset(Texts(points))
         == multiset(Texts(points[..j] + points[j + 1..])) + multiset{Dump(points[j], COMPACT)}
    ensures multiset(points) == multiset(points[..j] + points[j + 1..]) + multiset{points[j]}
  {
    hide Dump, Texts;
    assert points == points[..j] + [points[j]] + points[j + 1..];
    DropMiddle(points[..j], points[j], points[j + 1..]);
  }

  lemma DropMiddle(a: seq<Json>, p: Json, b: seq<Json>)
    ensures multiset(Texts(a + [p] + b)) == multiset(Texts(a + b)) + multiset{Dump(p, COMPACT)}
    ensures multiset(a + [p] + b) == multiset(a + b) + multiset{p}
  {
    assert Texts([p]) == [Dump(p, COMPACT)];
    TextsJoin(a + [p], b);
    TextsJoin(a, [p]);
    TextsJoin(a, b);
    hide Dump, Texts;
    Around(Texts(a), Dump(p, COMPACT), Texts(b));
    Around(a, p, b);
  }

  lemma Around<T>(a: seq<T>, x: T, b: seq<T>)
    ensures multiset(a + [x] + b) == multiset(a + b) + multiset{x}
  {}

  lemma TextUnique(v: Json, w: Json)
    requires Valid(v) && Valid(w) && Dump(v, COMPACT) == Dump(w, COMPACT)
    ensures v == w
  {
    assert Dump(v, COMPACT) + "" == Dump(w, COMPACT) + "";
    DumpUnique(v, w, "", "", COMPACT);
  }

  lemma {:induction false} TextsIff(a: seq<Json>, b: seq<Json>)
    requires AllValid(a) && AllValid(b)
    ensures multiset(Texts(a)) == multiset(Texts(b)) <==> multiset(a) == multiset(b)
    decreases |a|
  {
    TextsAt(a);
    TextsAt(b);
    hide Dump, Texts, Valid;
    var x, y := Texts(a), Texts(b);
    if multiset(x) == multiset(y) { SameMembers(x, y); }
    if multiset(a) == multiset(b) { SameMembers(a, b); }
    if a == [] {
      assert multiset(a) == multiset(b) ==> x == y;
    } else if multiset(x) == multiset(y) || multiset(a) == multiset(b) {
      var j := FirstAgain(a, b);
      DropOne(a, 0);
      DropOne(b, j);
      var c, d := a[..0] + a[1..], b[..j] + b[j + 1..];
      TextsIff(c, d);
      Cancel(multiset(Texts(c)), multiset(Texts(d)), Dump(a[0], COMPACT));
      Cancel(multiset(c), multiset(d), a[0]);
    }
  }

  lemma FirstAgain(a: seq<Json>, b: seq<Json>) returns (j: nat)
    requires AllValid(a) && AllValid(b) && a != []
    requires multiset(Texts(a)) == multiset(Texts(b)) || multiset(a) == multiset(b)
    ensures j < |b| && b[j] == a[0]
  {
    TextsAt(a);
    TextsAt(b);
    hide Dump, Texts, Valid;
    if multiset(a) == multiset(b) {
      assert a[0] in multiset(b);
      j :| j < |b| && b[j] == a[0];
    } else {
      assert Texts(a)[0] in multiset(Texts(b));
      j :| j < |b| && Texts(b)[j] == Texts(a)[0];
      TextUnique(a[0], b[j]);
    }
  }

  // ---- A point is written on one line ----------------------------------------------------------------------

  predicate Printable(s: string) { forall i :: 0 <= i < |s| ==> ' ' <= s[i] <= '~' }

  lemma PrintableJoin(a: string, b: string)
    requires Printable(a) && Printable(b)
    ensures Printable(a + b)
  {}

  lemma UnitPrintable(u: nat)
    requires u < 0x10000
    ensures Printable(EscapeUnit(u))
  {
    HexPrintable(u);
    hide Hex4;
  }

  lemma HexPrintable(u: nat)
    requires u < 0x10000
    ensures |Hex4(u)| == 4 && Printable(Hex4(u))
  {
    forall d: nat | d < 16 ensures ' ' <= Hex(d) <= '~' {}
    hide Hex;
  }

  lemma {:induction false} UnitsPrintable(us: seq<Unit>)
    ensures Printable(EscapeUnits(us))
  {
    hide EscapeUnit;
    if us != [] {
      UnitPrintable(us[0]);
      UnitsPrintable(us[1..]);
    }
  }

  lemma QuotedPrintable(s: string)
    ensures Printable(Quoted(s))
  {
    UnitsPrintable(Units(s));
    hide EscapeUnits, Units;
  }

  lemma NumberPrintable(s: string)
    requires NumberText(s)
    ensures Printable(s)
  {
    forall i | 0 <= i < |s| ensures ' ' <= s[i] <= '~' { assert NumberChar(s[i]); }
  }

  lemma {:induction false} DumpPrintable(v: Json)
    requires Valid(v)
    ensures Printable(Dump(v, COMPACT)) && Dump(v, COMPACT) != ""
    decreases v, 1
  {
    DumpStarts(v, COMPACT);
    match v
    case Null =>
    case Bool(_) =>
    case Number(literal) => NumberPrintable(literal);
    case Str(s) => QuotedPrintable(s);
    case List(items) =>
      if items != [] {
        hide MoreItems;
        DumpPrintable(items[0]);
        ItemsPrintable(items[1..]);
        PrintableJoin("[" + Dump(items[0], COMPACT), MoreItems(items[1..], COMPACT));
      }
    case Dict(entries) =>
      if entries != [] {
        hide MoreEntries, DumpEntry;
        EntryPrintable(entries[0]);
        EntriesPrintable(entries[1..]);
        PrintableJoin("{" + DumpEntry(entries[0], COMPACT), MoreEntries(entries[1..], COMPACT));
      }
  }

  lemma {:induction false} ItemsPrintable(items: seq<Json>)
    requires forall i :: 0 <= i < |items| ==> Valid(items[i])
    ensures Printable(MoreItems(items, COMPACT))
    decreases items, 0
  {
    if items != [] {
      hide Dump, Valid;
      DumpPrintable(items[0]);
      ItemsPrintable(items[1..]);
      PrintableJoin("," + Dump(items[0], COMPACT), MoreItems(items[1..], COMPACT));
    }
  }

  lemma {:induction false} EntryPrintable(e: Entry)
    requires Valid(e.value)
    ensures Printable(DumpEntry(e, COMPACT))
    decreases e, 2
  {
    hide Dump, Quoted;
    QuotedPrintable(e.key);
    DumpPrintable(e.value);
    PrintableJoin(Quoted(e.key) + ":", Dump(e.value, COMPACT));
  }

  lemma {:induction false} EntriesPrintable(entries: seq<Entry>)
    requires forall i :: 0 <= i < |entries| ==> Valid(entries[i].value)
    ensures Printable(MoreEntries(entries, COMPACT))
    decreases entries, 0
  {
    if entries != [] {
      hide DumpEntry, Valid;
      EntryPrintable(entries[0]);
      EntriesPrintable(entries[1..]);
      PrintableJoin("," + DumpEntry(entries[0], COMPACT), MoreEntries(entries[1..], COMPACT));
    }
  }

  lemma TextsAreLines(points: seq<Json>)
    requires AllValid(points)
    ensures forall x :: x in Texts(points) ==> Line(x)
  {
    TextsAt(points);
    hide Dump, Texts;
    forall x | x in Texts(points) ensures Line(x) {
      var i :| 0 <= i < |Texts(points)| && Texts(points)[i] == x;
      DumpPrintable(points[i]);
    }
  }

  /** Two inventories have one count and digest exactly when they are of the same points, in whatever
      order and however they are split. */
  lemma SameDigestIff(a: seq<Json>, b: seq<Json>)
    requires AllValid(a) && AllValid(b)
    ensures (|a| == |b| && Digested(a) == Digested(b)) <==> multiset(a) == multiset(b)
  {
    hide Texts, Sorted, Join, Line, Valid;
    var x, y := Texts(a), Texts(b);
    TextsIff(a, b);
    SortedIff(x, y, Itself);
    if multiset(a) == multiset(b) { SameMembers(a, b); }
    if Digested(a) == Digested(b) {
      TextsAreLines(a);
      TextsAreLines(b);
      SortPermutes(x, Itself);
      SortPermutes(y, Itself);
      SameMembers(Sorted(x, Itself), x);
      SameMembers(Sorted(y, Itself), y);
      JoinUnique(Sorted(x, Itself), Sorted(y, Itself));
    }
  }

  // ---- Reading the pages -----------------------------------------------------------------------------------

  const MAX_POINTS := 10000
  const MAX_BYTES := 64 * 1024 * 1024

  datatype Page = Page(points: seq<Json>, next: Option<string>)

  datatype Outcome = Inventory(count: nat, digested: string) | BoundExceeded | NoProgress

  /** The points of the first pages, in the order they came in. */
  function Points(answer: nat -> Page, n: nat): seq<Json> {
    if n == 0 then [] else Points(answer, n - 1) + answer(n - 1).points
  }

  function Bytes(texts: seq<string>): nat {
    if texts == [] then 0 else Bytes(texts[..|texts| - 1]) + |texts[|texts| - 1]|
  }

  predicate WithinBounds(points: seq<Json>) { |points| <= MAX_POINTS && Bytes(Texts(points)) <= MAX_BYTES }

  /** The bounds are exceeded with the `i`-th of some points after others. */
  predicate Exceeds(before: seq<Json>, points: seq<Json>, i: nat) {
    0 < i <= |points| && !WithinBounds(before + points[..i])
  }

  /** Some points of a page, after the pages before it, exceed the bounds. */
  ghost predicate Overflows(answer: nat -> Page, n: nat) {
    exists i: nat :: Exceeds(Points(answer, n), answer(n).points, i)
  }

  /** The first `n` pages each name a page to go on with, each a new one. */
  predicate Progressing(answer: nat -> Page, n: nat) {
    && (forall i :: 0 <= i < n ==> answer(i).next.Some?)
    && (forall i, j :: 0 <= i < j < n ==> answer(i).next != answer(j).next)
  }

  /** Reading ends with page number `last`: every page before it was within bounds and named a new
      page, and it exceeds the bounds, names no page, or names one a second time. */
  ghost predicate Ends(answer: nat -> Page, last: nat, r: Outcome) {
    && Progressing(answer, last)
    && (forall i: nat :: i <= last ==> WithinBounds(Points(answer, i)))
    && match r
       case BoundExceeded => Overflows(answer, last)
       case Inventory(count, digested) =>
         && answer(last).next.None? && WithinBounds(Points(answer, last + 1))
         && count == |Points(answer, last + 1)| && digested == Digested(Points(answer, last + 1))
       case NoProgress =>
         && WithinBounds(Points(answer, last + 1)) && answer(last).next.Some?
         && exists i :: 0 <= i < last && answer(i).next == answer(last).next
  }

  lemma TextsSnoc(points: seq<Json>, p: Json)
    ensures Texts(points + [p]) == Texts(points) + [Dump(p, COMPACT)]
    ensures Bytes(Texts(points + [p])) == Bytes(Texts(points)) + |Dump(p, COMPACT)|
  {
    hide Dump;
    TextsJoin(points, [p]);
    var more := Texts(points) + [Dump(p, COMPACT)];
    assert more[..|more| - 1] == Texts(points);
    assert Texts([p]) == [Dump(p, COMPACT)];
  }

  /** Add the points of one page to the texts read so far, unless a bound is exceeded on the way. */
  method AddPage(ghost before: seq<Json>, values: seq<string>, size: nat, points: seq<Json>)
      returns (more: seq<string>, total: nat, within: bool)
    requires values == Texts(before) && size == Bytes(values)
    ensures within <==> forall i: nat :: !Exceeds(before, points, i)
    ensures within ==> more == Texts(before + points) && total == Bytes(more)
  {
    hide Dump, Texts, Bytes;
    more, total := values, size;
    var i := 0;
    assert before + points[..0] == before;
    while i < |points|
      invariant 0 <= i <= |points| && more == Texts(before + points[..i]) && total == Bytes(more)
      invariant forall j: nat :: j <= i ==> !Exceeds(before, points, j)
    {
      var value := Dump(points[i], COMPACT);
      TextsSnoc(before + points[..i], points[i]);
      assert before + points[..i] + [points[i]] == before + points[..i + 1];
      total, more := total + |value|, more + [value];
      i := i + 1;
      TextsAt(before + points[..i]);
      if |more| > MAX_POINTS || total > MAX_BYTES {
        assert Exceeds(before, points, i);
        return more, total, false;
      }
    }
    assert points[..i] == points;
    return more, total, true;
  }

  /** Read the whole collection. A server that names pages from a finite set cannot keep the loop
      going: it ends with the inventory of all pages up to the last, with a bound exceeded by the
      points of some pages, or with a page named a second time. */
  method VectorInventory(answer: nat -> Page, ghost cursors: set<string>) returns (r: Outcome)
    requires forall n :: answer(n).next.Some? ==> answer(n).next.value in cursors
    ensures exists last: nat :: Ends(answer, last, r)
  {
    hide Texts, Bytes;
    var values, seen, size := [], {}, 0;
    NothingRead();
    var n := 0;
    while true
      invariant Progressing(answer, n)
      invariant values == Texts(Points(answer, n)) && size == Bytes(values)
      invariant forall i :: 0 <= i <= n ==> WithinBounds(Points(answer, i))
      invariant seen == set i | 0 <= i < n && answer(i).next.Some? :: answer(i).next.value
      invariant seen <= cursors
      decreases cursors - seen
    {
      var page := answer(n);
      var within;
      values, size, within := AddPage(Points(answer, n), values, size, page.points);
      if !within {
        assert Ends(answer, n, BoundExceeded);
        return BoundExceeded;
      }
      PageWithin(answer, n);
      if page.next.None? { break; }
      if page.next.value in seen {
        assert Ends(answer, n, NoProgress);
        return NoProgress;
      }
      seen := seen + {page.next.value};
      n := n + 1;
    }
    TextsAt(Points(answer, n + 1));
    r := Inventory(|values|, Join(Sorted(values, Itself)));
    assert Ends(answer, n, r);
  }

  lemma NothingRead()
    ensures Texts([]) == [] && Bytes([]) == 0
  {}

  lemma PageWithin(answer: nat -> Page, n: nat)
    requires WithinBounds(Points(answer, n))
    requires forall i: nat :: !Exceeds(Points(answer, n), answer(n).points, i)
    ensures WithinBounds(Points(answer, n + 1))
  {
    var points := answer(n).points;
    assert points[..|points|] == points;
    assert !Exceeds(Points(answer, n), points, |points|);
    if points == [] { assert Points(answer, n) + [] == Points(answer, n); }
    hide WithinBounds;
  }
}
