/** JSON values and the text they are written as, with keys in order and everything but printable
    ASCII escaped; and that no two values are written alike. */
module JsonText {

  /** A number is kept as it is written. A dictionary is its entries in the order of its keys, which
      is the order they are written in. */
  datatype Json = Null | Bool(b: bool) | Number(literal: string) | Str(s: string)
                | List(items: seq<Json>) | Dict(entries: seq<Entry>)

  datatype Entry = Entry(key: string, value: Json)

  /** What stands between the items of a list or dictionary, and between a key and its value. */
  datatype Style = Style(comma: string, colon: string) {
    predicate Valid() { comma != "" && comma[0] == ',' }
  }

  const PLAIN := Style(", ", ": ")
  const COMPACT := Style(",", ":")

  // ---- Code units ----------------------------------------------------------------------------------

  type Unit = u: nat | u < 0x10000

  function Hex(d: nat): char
    requires d < 16
  {
    "0123456789abcdef"[d]
  }

  function Unhex(c: char): nat {
    if '0' <= c <= '9' then (c - '0') as nat
    else if 'a' <= c <= 'f' then (c - 'a') as nat + 10
    else 0
  }

  function Hex4(u: nat): string
    requires u < 0x10000
  {
    [Hex(u / 4096), Hex(u / 256 % 16), Hex(u / 16 % 16), Hex(u % 16)]
  }

  function EscapeUnit(u: nat): (r: string)
    requires u < 0x10000
    ensures r != "" && r[0] != '"'
  {
    if u == 34 then "\\\""
    else if u == 92 then "\\\\"
    else if u == 8 then "\\b"
    else if u == 9 then "\\t"
    else if u == 10 then "\\n"
    else if u == 12 then "\\f"
    else if u == 13 then "\\r"
    else if 32 <= u <= 126 then [u as char]
    else "\\u" + Hex4(u)
  }

  /** The code unit an escaped text starts with, and the text after it. */
  function DecodeUnit(s: string): (nat, string) {
    if s == "" then (0, "")
    else if s[0] != '\\' then (s[0] as nat, s[1..])
    else if |s| < 2 then (0, "")
    else if s[1] == 'u' then
      if |s| < 6 then (0, "")
      else (4096 * Unhex(s[2]) + 256 * Unhex(s[3]) + 16 * Unhex(s[4]) + Unhex(s[5]), s[6..])
    else
      var u := match s[1] case 'b' => 8 case 't' => 9 case 'n' => 10 case 'f' => 12 case 'r' => 13 case c => c as nat;
      (u, s[2..])
  }

  lemma HexUnhex(d: nat)
    requires d < 16
    ensures Unhex(Hex(d)) == d
  {}

  lemma Hex4Value(u: nat)
    requires u < 0x10000
    ensures 4096 * (u / 4096) + 256 * (u / 256 % 16) + 16 * (u / 16 % 16) + u % 16 == u
  {
    var a, b, c := u / 16, u / 256, u / 4096;
    assert u == 16 * a + u % 16;
    assert b == a / 16 && a == 16 * b + a % 16;
    assert c == b / 16 && b == 16 * c + b % 16;
  }

  lemma UnitDecoded(u: nat, rest: string)
    requires u < 0x10000
    ensures DecodeUnit(EscapeUnit(u) + rest) == (u, rest)
  {
    if !(32 <= u <= 126) && u !in {8, 9, 10, 12, 13} {
      HexDecoded(u, rest);
      hide Hex4, DecodeUnit;
    } else {
      assert (EscapeUnit(u) + rest)[|EscapeUnit(u)|..] == rest;
      hide Hex4, Unhex;
    }
  }

  lemma HexDecoded(u: nat, rest: string)
    requires u < 0x10000
    ensures DecodeUnit("\\u" + Hex4(u) + rest) == (u, rest)
  {
    Hex4Value(u);
    HexUnhex(u / 4096);
    HexUnhex(u / 256 % 16);
    HexUnhex(u / 16 % 16);
    HexUnhex(u % 16);
    assert ("\\u" + Hex4(u) + rest)[6..] == rest;
    hide Unhex, Hex;
  }

  function EscapeUnits(us: seq<Unit>): string {
    if us == [] then "" else EscapeUnit(us[0]) + EscapeUnits(us[1..])
  }

  function Closed(us: seq<Unit>, rest: string): string { EscapeUnits(us) + "\"" + rest }

  lemma ClosedHead(us: seq<Unit>, rest: string)
    ensures Closed(us, rest) != ""
    ensures us == [] ==> Closed(us, rest)[0] == '"' && Closed(us, rest)[1..] == rest
    ensures us != [] ==>
              && Closed(us, rest)[0] != '"'
              && DecodeUnit(Closed(us, rest)) == (us[0], Closed(us[1..], rest))
  {
    hide EscapeUnit, DecodeUnit;
    if us != [] {
      assert Closed(us, rest) == EscapeUnit(us[0]) + Closed(us[1..], rest);
      UnitDecoded(us[0], Closed(us[1..], rest));
    }
  }

  /** A quoted text ends at its closing quote, and its code units can be read back. */
  lemma {:induction false} UnitsUnique(a: seq<Unit>, b: seq<Unit>, r: string, t: string)
    requires Closed(a, r) == Closed(b, t)
    ensures a == b && r == t
    decreases |a|
  {
    hide Closed, DecodeUnit;
    ClosedHead(a, r);
    ClosedHead(b, t);
    if a != [] { UnitsUnique(a[1..], b[1..], r, t); }
  }

  // ---- Characters ----------------------------------------------------------------------------------

  /** The UTF-16 code units of a text. */
  function Units(s: string): seq<Unit> {
    if s == "" then []
    else
      var n := s[0] as nat;
      (if n < 0x10000 then [n]
       else [0xD800 + (n - 0x10000) / 0x400, 0xDC00 + (n - 0x10000) % 0x400]) + Units(s[1..])
  }

  lemma {:induction false} UnitsInjective(a: string, b: string)
    requires Units(a) == Units(b)
    ensures a == b
    decreases |a|
  {
    if a != "" && b != "" {
      var m, n := a[0] as nat, b[0] as nat;
      assert Units(a)[0] == Units(b)[0];
      assert !(0xD800 <= m < 0xE000) && !(0xD800 <= n < 0xE000);
      if m >= 0x10000 {
        assert Units(a)[1] == Units(b)[1];
        assert Units(a)[2..] == Units(a[1..]) && Units(b)[2..] == Units(b[1..]);
      } else {
        assert Units(a)[1..] == Units(a[1..]) && Units(b)[1..] == Units(b[1..]);
      }
      assert m == n && a[0] == b[0];
      UnitsInjective(a[1..], b[1..]);
      assert a == [a[0]] + a[1..] && b == [b[0]] + b[1..];
    }
  }

  function Quoted(s: string): string { "\"" + EscapeUnits(Units(s)) + "\"" }

  lemma QuotedUnique(a: string, b: string, r: string, t: string)
    requires Quoted(a) + r == Quoted(b) + t
    ensures a == b && r == t
  {
    QuotedClosed(a, r);
    QuotedClosed(b, t);
    hide Quoted, Closed, Units;
    UnitsUnique(Units(a), Units(b), r, t);
    UnitsInjective(a, b);
  }

  lemma QuotedClosed(s: string, rest: string)
    ensures (Quoted(s) + rest)[1..] == Closed(Units(s), rest)
  {
    hide EscapeUnits, Units;
  }

  // ---- Values --------------------------------------------------------------------------------------

  predicate NumberStart(c: char) { c in "-0123456789NI" }
  predicate NumberChar(c: char) { NumberStart(c) || c in "+.eEafinty" }

  predicate NumberText(s: string) {
    s != "" && NumberStart(s[0]) && forall i :: 0 <= i < |s| ==> NumberChar(s[i])
  }

  predicate Valid(v: Json) {
    match v
    case Number(literal) => NumberText(literal)
    case List(items) => forall i :: 0 <= i < |items| ==> Valid(items[i])
    case Dict(entries) => forall i :: 0 <= i < |entries| ==> Valid(entries[i].value)
    case _ => true
  }

  function Dump(v: Json, style: Style): string
    decreases v, 0
  {
    match v
    case Null => "null"
    case Bool(b) => if b then "true" else "false"
    case Number(literal) => literal
    case Str(s) => Quoted(s)
    case List(items) =>
      if items == [] then "[]" else "[" + Dump(items[0], style) + MoreItems(items[1..], style)
    case Dict(entries) =>
      if entries == [] then "{}" else "{" + DumpEntry(entries[0], style) + MoreEntries(entries[1..], style)
  }

  function DumpEntry(e: Entry, style: Style): string
    decreases e, 1
  {
    Quoted(e.key) + style.colon + Dump(e.value, style)
  }

  function MoreItems(items: seq<Json>, style: Style): string {
    if items == [] then "]" else style.comma + Dump(items[0], style) + MoreItems(items[1..], style)
  }

  function MoreEntries(entries: seq<Entry>, style: Style): string {
    if entries == [] then "}" else style.comma + DumpEntry(entries[0], style) + MoreEntries(entries[1..], style)
  }

  /** A text that cannot continue a number. */
  predicate Stops(r: string) { r == "" || r[0] in ",]}" }

  predicate GoesOn(x: string) { x != "" && NumberChar(x[0]) }

  lemma NumberHead(a: string, r: string)
    requires Stops(r) && forall i :: 0 <= i < |a| ==> NumberChar(a[i])
    ensures GoesOn(a + r) <==> a != ""
    ensures a == "" ==> a + r == r
    ensures a != "" ==> (a + r)[0] == a[0] && (a + r)[1..] == a[1..] + r && a == [a[0]] + a[1..]
  {}

  lemma {:induction false} NumberUnique(a: string, b: string, r: string, t: string)
    requires (forall i :: 0 <= i < |a| ==> NumberChar(a[i])) && (forall i :: 0 <= i < |b| ==> NumberChar(b[i]))
    requires Stops(r) && Stops(t) && a + r == b + t
    ensures a == b && r == t
    decreases |a|
  {
    hide NumberStart, NumberChar, Stops, GoesOn;
    NumberHead(a, r);
    NumberHead(b, t);
    if a != "" { NumberUnique(a[1..], b[1..], r, t); }
  }

  /** The character a value starts with tells its kind, numbers from each other apart. */
  function Kind(v: Json): nat {
    match v
    case Null => 0 case Bool(b) => if b then 1 else 2 case Number(_) => 3
    case Str(_) => 4 case List(_) => 5 case Dict(_) => 6
  }

  function KindOf(c: char): nat {
    if c == 'n' then 0 else if c == 't' then 1 else if c == 'f' then 2
    else if c == '"' then 4 else if c == '[' then 5 else if c == '{' then 6 else 3
  }

  lemma DumpStarts(v: Json, style: Style)
    requires Valid(v)
    ensures Dump(v, style) != "" && KindOf(Dump(v, style)[0]) == Kind(v)
    ensures Dump(v, style)[0] != ']' && Dump(v, style)[0] != '}'
  {
    hide MoreItems, MoreEntries, DumpEntry, EscapeUnits, Units, NumberStart, NumberChar;
    match v
    case Number(literal) => NumberKind(literal[0]);
    case Str(s) => QuotedStarts(s);
    case List(items) => DumpList(items, style);
    case Dict(entries) => DumpDict(entries, style);
    case _ =>
  }

  lemma NumberKind(c: char)
    requires NumberStart(c)
    ensures KindOf(c) == 3 && c != ']' && c != '}'
  {}

  lemma QuotedStarts(s: string)
    ensures Quoted(s) != "" && Quoted(s)[0] == '"'
  {
    hide EscapeUnits, Units;
  }

  lemma DumpList(items: seq<Json>, style: Style)
    ensures var x := Dump(List(items), style);
      x != "" && x[0] == '['
      && x[1..] == if items == [] then "]" else Dump(items[0], style) + MoreItems(items[1..], style)
  {
    hide MoreItems;
  }

  lemma DumpDict(entries: seq<Entry>, style: Style)
    ensures var x := Dump(Dict(entries), style);
      x != "" && x[0] == '{'
      && x[1..] == if entries == [] then "}" else DumpEntry(entries[0], style) + MoreEntries(entries[1..], style)
  {
    hide MoreEntries, DumpEntry;
  }

  /** A list or dictionary after its opening bracket, or after an item, and what follows it. */
  lemma ItemsSplit(items: seq<Json>, r: string, style: Style)
    requires items != []
    ensures MoreItems(items, style) + r
         == style.comma + (Dump(items[0], style) + (MoreItems(items[1..], style) + r))
  {
    hide Dump;
  }

  lemma EntriesSplit(entries: seq<Entry>, r: string, style: Style)
    requires entries != []
    ensures MoreEntries(entries, style) + r
         == style.comma + (DumpEntry(entries[0], style) + (MoreEntries(entries[1..], style) + r))
  {
    hide DumpEntry;
  }

  lemma EntrySplit(e: Entry, r: string, style: Style)
    ensures DumpEntry(e, style) + r == Quoted(e.key) + (style.colon + (Dump(e.value, style) + r))
  {
    hide Dump, Quoted;
  }

  lemma SameKind(v: Json, w: Json, r: string, t: string, style: Style)
    requires Valid(v) && Valid(w) && Dump(v, style) + r == Dump(w, style) + t
    ensures Kind(v) == Kind(w)
  {
    DumpStarts(v, style);
    DumpStarts(w, style);
    assert (Dump(v, style) + r)[0] == Dump(v, style)[0];
    assert (Dump(w, style) + t)[0] == Dump(w, style)[0];
  }

  lemma ItemsStop(items: seq<Json>, r: string, style: Style)
    requires style.Valid()
    ensures MoreItems(items, style) != "" && Stops(MoreItems(items, style) + r)
    ensures MoreItems(items, style)[0] == if items == [] then ']' else ','
  {}

  lemma EntriesStop(entries: seq<Entry>, r: string, style: Style)
    requires style.Valid()
    ensures MoreEntries(entries, style) != "" && Stops(MoreEntries(entries, style) + r)
    ensures MoreEntries(entries, style)[0] == if entries == [] then '}' else ','
  {}

  /** No two values are written alike, whatever follows them. */
  lemma {:induction false} DumpUnique(v: Json, w: Json, r: string, t: string, style: Style)
    requires style.Valid() && Valid(v) && Valid(w) && Stops(r) && Stops(t)
    requires Dump(v, style) + r == Dump(w, style) + t
    ensures v == w && r == t
    decreases v, 1
  {
    SameKind(v, w, r, t, style);
    match v
    case Null => PrefixCut("null", r, t);
    case Bool(b) => PrefixCut(if b then "true" else "false", r, t);
    case Number(literal) => NumberUnique(literal, w.literal, r, t);
    case Str(s) => QuotedUnique(s, w.s, r, t);
    case List(items) => ListUnique(v, w, r, t, style);
    case Dict(entries) => DictUnique(v, w, r, t, style);
  }

  lemma PrefixCut(a: string, r: string, t: string)
    requires a + r == a + t
    ensures r == t
  {
    assert (a + r)[|a|..] == r && (a + t)[|a|..] == t;
  }

  lemma {:induction false} ListUnique(v: Json, w: Json, r: string, t: string, style: Style)
    requires style.Valid() && Valid(v) && Valid(w) && Stops(r) && Stops(t)
    requires v.List? && w.List? && Dump(v, style) + r == Dump(w, style) + t
    ensures v == w && r == t
    decreases v, 0
  {
    var a, b := v.items, w.items;
    ListOpened(v, r, style);
    ListOpened(w, t, style);
    var x, y := Dump(v, style) + r, Dump(w, style) + t;
    assert x[1..] == y[1..];
    assert x[1] == y[1];
    assert (a == []) == (b == []);
    if a == [] {
      PrefixCut("]", r, t);
    } else {
      hide Dump, MoreItems, Stops;
      ItemsStop(a[1..], r, style);
      ItemsStop(b[1..], t, style);
      DumpUnique(a[0], b[0], MoreItems(a[1..], style) + r, MoreItems(b[1..], style) + t, style);
      ItemsUnique(a[1..], b[1..], r, t, style);
      assert a == [a[0]] + a[1..] && b == [b[0]] + b[1..];
    }
  }

  lemma ListOpened(v: Json, r: string, style: Style)
    requires Valid(v) && v.List?
    ensures var x := Dump(v, style) + r;
      && |x| >= 2
      && (x[1] == ']' <==> v.items == [])
      && (v.items == [] ==> x[1..] == "]" + r)
      && (v.items != [] ==> x[1..] == Dump(v.items[0], style) + (MoreItems(v.items[1..], style) + r))
  {
    hide Dump, MoreItems;
    DumpList(v.items, style);
    if v.items != [] { DumpStarts(v.items[0], style); }
  }

  lemma {:induction false} ItemsUnique(a: seq<Json>, b: seq<Json>, r: string, t: string, style: Style)
    requires style.Valid() && Stops(r) && Stops(t)
    requires (forall i :: 0 <= i < |a| ==> Valid(a[i])) && (forall i :: 0 <= i < |b| ==> Valid(b[i]))
    requires MoreItems(a, style) + r == MoreItems(b, style) + t
    ensures a == b && r == t
    decreases a, 0
  {
    ItemsStop(a, r, style);
    ItemsStop(b, t, style);
    assert (MoreItems(a, style) + r)[0] == MoreItems(a, style)[0];
    assert (MoreItems(b, style) + t)[0] == MoreItems(b, style)[0];
    assert (a == []) == (b == []);
    if a == [] {
      PrefixCut("]", r, t);
    } else {
      var x, y := MoreItems(a[1..], style) + r, MoreItems(b[1..], style) + t;
      hide Dump, MoreItems, Stops;
      ItemsSplit(a, r, style);
      ItemsSplit(b, t, style);
      PrefixCut(style.comma, Dump(a[0], style) + x, Dump(b[0], style) + y);
      ItemsStop(a[1..], r, style);
      ItemsStop(b[1..], t, style);
      DumpUnique(a[0], b[0], x, y, style);
      ItemsUnique(a[1..], b[1..], r, t, style);
      assert a == [a[0]] + a[1..] && b == [b[0]] + b[1..];
    }
  }

  lemma {:induction false} EntryUnique(e: Entry, f: Entry, r: string, t: string, style: Style)
    requires style.Valid() && Valid(e.value) && Valid(f.value) && Stops(r) && Stops(t)
    requires DumpEntry(e, style) + r == DumpEntry(f, style) + t
    ensures e == f && r == t
    decreases e, 2
  {
    var x, y := style.colon + (Dump(e.value, style) + r), style.colon + (Dump(f.value, style) + t);
    hide Dump, DumpEntry, Quoted, Stops;
    EntrySplit(e, r, style);
    EntrySplit(f, t, style);
    QuotedUnique(e.key, f.key, x, y);
    PrefixCut(style.colon, Dump(e.value, style) + r, Dump(f.value, style) + t);
    DumpUnique(e.value, f.value, r, t, style);
  }

  lemma {:induction false} EntriesUnique(a: seq<Entry>, b: seq<Entry>, r: string, t: string, style: Style)
    requires style.Valid() && Stops(r) && Stops(t)
    requires (forall i :: 0 <= i < |a| ==> Valid(a[i].value)) && (forall i :: 0 <= i < |b| ==> Valid(b[i].value))
    requires MoreEntries(a, style) + r == MoreEntries(b, style) + t
    ensures a == b && r == t
    decreases a, 0
  {
    EntriesStop(a, r, style);
    EntriesStop(b, t, style);
    assert (MoreEntries(a, style) + r)[0] == MoreEntries(a, style)[0];
    assert (MoreEntries(b, style) + t)[0] == MoreEntries(b, style)[0];
    assert (a == []) == (b == []);
    if a == [] {
      PrefixCut("}", r, t);
    } else {
      var x, y := MoreEntries(a[1..], style) + r, MoreEntries(b[1..], style) + t;
      hide DumpEntry, MoreEntries, Stops;
      EntriesSplit(a, r, style);
      EntriesSplit(b, t, style);
      PrefixCut(style.comma, DumpEntry(a[0], style) + x, DumpEntry(b[0], style) + y);
      EntriesStop(a[1..], r, style);
      EntriesStop(b[1..], t, style);
      EntryUnique(a[0], b[0], x, y, style);
      EntriesUnique(a[1..], b[1..], r, t, style);
      assert a == [a[0]] + a[1..] && b == [b[0]] + b[1..];
    }
  }

  lemma DictOpened(v: Json, r: string, style: Style)
    requires Valid(v) && v.Dict?
    ensures var x := Dump(v, style) + r;
      && |x| >= 2
      && (x[1] == '}' <==> v.entries == [])
      && (v.entries == [] ==> x[1..] == "}" + r)
      && (v.entries != [] ==> x[1..] == DumpEntry(v.entries[0], style) + (MoreEntries(v.entries[1..], style) + r))
  {
    hide Dump, MoreEntries, DumpEntry;
    DumpDict(v.entries, style);
    if v.entries != [] { EntryStarts(v.entries[0], style); }
  }

  lemma EntryStarts(e: Entry, style: Style)
    ensures DumpEntry(e, style) != "" && DumpEntry(e, style)[0] == '"'
  {
    hide EscapeUnits, Units, Dump;
  }

  lemma {:induction false} DictUnique(v: Json, w: Json, r: string, t: string, style: Style)
    requires style.Valid() && Valid(v) && Valid(w) && Stops(r) && Stops(t)
    requires v.Dict? && w.Dict? && Dump(v, style) + r == Dump(w, style) + t
    ensures v == w && r == t
    decreases v, 0
  {
    var a, b := v.entries, w.entries;
    DictOpened(v, r, style);
    DictOpened(w, t, style);
    var x, y := Dump(v, style) + r, Dump(w, style) + t;
    assert x[1..] == y[1..];
    assert x[1] == y[1];
    assert (a == []) == (b == []);
    if a == [] {
      PrefixCut("}", r, t);
    } else {
      hide Dump, DumpEntry, MoreEntries, Stops;
      EntriesStop(a[1..], r, style);
      EntriesStop(b[1..], t, style);
      EntryUnique(a[0], b[0], MoreEntries(a[1..], style) + r, MoreEntries(b[1..], style) + t, style);
      EntriesUnique(a[1..], b[1..], r, t, style);
      assert a == [a[0]] + a[1..] && b == [b[0]] + b[1..];
    }
  }
}
