/** The digest by which two access policies are compared: lists in any order, at any depth. */
module PolicyDigest {
  import opened JsonText
  import opened KeySort

  // ---- The normal form -----------------------------------------------------------------------------

  /** The key lists are sorted by: the text an item is written as. */
  function Key(v: Json): string { Dump(v, PLAIN) }

  function Normal(v: Json): Json {
    match v
    case List(items) => List(Sorted(NormalItems(items), Key))
    case Dict(entries) => Dict(NormalEntries(entries))
    case _ => v
  }

  function NormalItems(items: seq<Json>): seq<Json> {
    if items == [] then [] else [Normal(items[0])] + NormalItems(items[1..])
  }

  function NormalEntries(entries: seq<Entry>): seq<Entry> {
    if entries == [] then [] else [Entry(entries[0].key, Normal(entries[0].value))] + NormalEntries(entries[1..])
  }

  /** The text that is hashed. */
  function PolicyText(v: Json): string { Dump(Normal(v), COMPACT) }

  // ---- What it should tell apart -------------------------------------------------------------------

  function Without(items: seq<Json>, j: nat): seq<Json>
    requires j < |items|
  {
    items[..j] + items[j + 1..]
  }

  /** Equal but for the order of lists, at every depth. */
  ghost predicate Same(v: Json, w: Json) {
    match v
    case List(items) => w.List? && SameItems(items, w.items)
    case Dict(entries) => w.Dict? && SameEntries(entries, w.entries)
    case _ => v == w
  }

  /** The items can be paired off. */
  ghost predicate SameItems(a: seq<Json>, b: seq<Json>) {
    if a == [] then b == []
    else exists j: nat :: j < |b| && Same(a[0], b[j]) && SameItems(a[1..], Without(b, j))
  }

  ghost predicate SameEntries(a: seq<Entry>, b: seq<Entry>) {
    if a == [] then b == []
    else
      && b != [] && a[0].key == b[0].key && Same(a[0].value, b[0].value)
      && SameEntries(a[1..], b[1..])
  }

  // ---- Sorting by an injective key -----------------------------------------------------------------

  lemma KeyInjective(v: Json, w: Json)
    requires Valid(v) && Valid(w) && Key(v) == Key(w)
    ensures v == w
  {
    assert Key(v) + "" == Key(w) + "";
    DumpUnique(v, w, "", "", PLAIN);
  }

  predicate AllValid(items: seq<Json>) { forall v :: v in items ==> Valid(v) }

  lemma KeyTellsValid(items: seq<Json>)
    requires AllValid(items)
    ensures KeyTells(items, Key)
  {
    hide Key, Valid;
    forall x, y | x in items && y in items && Key(x) == Key(y) ensures x == y { KeyInjective(x, y); }
  }

  // ---- The normal form tells exactly that apart ------------------------------------------------------

  lemma {:induction false} NormalIsValid(v: Json)
    requires Valid(v)
    ensures Valid(Normal(v))
    decreases v, 1
  {
    match v
    case List(items) =>
      NormalItemsAreValid(items);
      SortPermutes(NormalItems(items), Key);
      SameMembers(Sorted(NormalItems(items), Key), NormalItems(items));
    case Dict(entries) => NormalEntriesAreValid(entries);
    case _ =>
  }

  lemma {:induction false} NormalItemsAreValid(items: seq<Json>)
    requires forall i :: 0 <= i < |items| ==> Valid(items[i])
    ensures AllValid(NormalItems(items)) && |NormalItems(items)| == |items|
    decreases items, 0
  {
    if items != [] {
      NormalIsValid(items[0]);
      NormalItemsAreValid(items[1..]);
    }
  }

  lemma {:induction false} NormalEntriesAreValid(entries: seq<Entry>)
    requires forall i :: 0 <= i < |entries| ==> Valid(entries[i].value)
    ensures forall i :: 0 <= i < |NormalEntries(entries)| ==> Valid(NormalEntries(entries)[i].value)
    decreases entries, 0
  {
    if entries != [] {
      NormalIsValid(entries[0].value);
      NormalEntriesAreValid(entries[1..]);
    }
  }

  lemma {:induction false} NormalAt(items: seq<Json>)
    ensures |NormalItems(items)| == |items|
    ensures forall i :: 0 <= i < |items| ==> NormalItems(items)[i] == Normal(items[i])
  {
    if items != [] { NormalAt(items[1..]); }
  }

  lemma DropAt(n: seq<Json>, j: nat)
    requires j < |n|
    ensures multiset(n) == multiset(n[..j] + n[j + 1..]) + multiset{n[j]}
  {
    assert n == n[..j] + ([n[j]] + n[j + 1..]);
  }

  lemma NormalWithout(items: seq<Json>, j: nat)
    requires j < |items|
    ensures multiset(NormalItems(items)) == multiset(NormalItems(Without(items, j))) + multiset{Normal(items[j])}
  {
    hide Normal, NormalItems, Without;
    WithoutNormal(items, j);
    NormalAt(items);
    DropAt(NormalItems(items), j);
  }

  lemma WithoutNormal(items: seq<Json>, j: nat)
    requires j < |items|
    ensures |NormalItems(items)| == |items|
    ensures var n := NormalItems(items);
      NormalItems(Without(items, j)) == n[..j] + n[j + 1..]
  {
    hide Normal, NormalItems;
    NormalAt(items);
    NormalAt(Without(items, j));
    var m := NormalItems(Without(items, j));
    var n := NormalItems(items);
    assert m[..j] == n[..j];
    assert m[j..] == n[j + 1..];
  }

  lemma WithoutValid(items: seq<Json>, j: nat)
    requires j < |items| && forall i :: 0 <= i < |items| ==> Valid(items[i])
    ensures forall i :: 0 <= i < |Without(items, j)| ==> Valid(Without(items, j)[i])
  {
    hide Valid;
  }

  lemma {:induction false} NormalIff(v: Json, w: Json)
    requires Valid(v) && Valid(w)
    ensures Normal(v) == Normal(w) <==> Same(v, w)
    decreases v, 1
  {
    match v
    case List(items) =>
      if w.List? {
        NormalItemsAreValid(items);
        KeyTellsValid(NormalItems(items));
        SortedIff(NormalItems(items), NormalItems(w.items), Key);
        ItemsIff(items, w.items);
      }
    case Dict(entries) =>
      if w.Dict? { EntriesIff(entries, w.entries); }
    case _ =>
  }

  lemma {:induction false} ItemsIff(a: seq<Json>, b: seq<Json>)
    requires (forall i :: 0 <= i < |a| ==> Valid(a[i])) && (forall i :: 0 <= i < |b| ==> Valid(b[i]))
    ensures multiset(NormalItems(a)) == multiset(NormalItems(b)) <==> SameItems(a, b)
    decreases a, 0
  {
    NormalAt(a);
    NormalAt(b);
    var x, y := NormalItems(a), NormalItems(b);
    if a == [] {
      if multiset(x) == multiset(y) { SameMembers(x, y); }
    } else {
      PairedOff(a, b);
      hide Normal, NormalItems, Same, SameItems, Valid, Without;
      forall j: nat | j < |b|
        ensures Normal(a[0]) == Normal(b[j]) <==> Same(a[0], b[j])
        ensures Normal(a[0]) == Normal(b[j]) ==>
                  (multiset(x) == multiset(y) <==> SameItems(a[1..], Without(b, j)))
      {
        NormalIff(a[0], b[j]);
        WithoutValid(b, j);
        ItemsIff(a[1..], Without(b, j));
        if Normal(a[0]) == Normal(b[j]) { FirstRemoved(a, b, j); }
      }
      if multiset(x) == multiset(y) {
        SameMembers(x, y);
        assert x[0] in y;
        var j: nat :| j < |y| && y[j] == x[0];
        assert Same(a[0], b[j]) && SameItems(a[1..], Without(b, j));
      }
    }
  }

  lemma PairedOff(a: seq<Json>, b: seq<Json>)
    requires a != []
    ensures SameItems(a, b) <==>
              exists j: nat :: j < |b| && Same(a[0], b[j]) && SameItems(a[1..], Without(b, j))
  {
    hide Same, Without;
  }

  lemma FirstRemoved(a: seq<Json>, b: seq<Json>, j: nat)
    requires a != [] && j < |b| && Normal(a[0]) == Normal(b[j])
    ensures multiset(NormalItems(a)) == multiset(NormalItems(b))
       <==> multiset(NormalItems(a[1..])) == multiset(NormalItems(Without(b, j)))
  {
    NormalWithout(b, j);
    NormalWithout(a, 0);
    assert Without(a, 0) == a[1..];
    hide Normal, NormalItems, Without;
    Cancel(multiset(NormalItems(a[1..])), multiset(NormalItems(Without(b, j))), Normal(a[0]));
  }

  lemma {:induction false} EntriesIff(a: seq<Entry>, b: seq<Entry>)
    requires (forall i :: 0 <= i < |a| ==> Valid(a[i].value)) && (forall i :: 0 <= i < |b| ==> Valid(b[i].value))
    ensures NormalEntries(a) == NormalEntries(b) <==> SameEntries(a, b)
    decreases a, 0
  {
    if a != [] && b != [] {
      NormalIff(a[0].value, b[0].value);
      EntriesIff(a[1..], b[1..]);
      assert NormalEntries(a)[0].key == a[0].key && NormalEntries(b)[0].key == b[0].key;
      assert NormalEntries(a)[1..] == NormalEntries(a[1..]) && NormalEntries(b)[1..] == NormalEntries(b[1..]);
    }
  }

  /** Two policies have one text, and with an ideal hash one digest, exactly when they are equal but
      for the order of lists at every depth. */
  lemma SameDigestIff(v: Json, w: Json)
    requires Valid(v) && Valid(w)
    ensures PolicyText(v) == PolicyText(w) <==> Same(v, w)
  {
    NormalIff(v, w);
    NormalIsValid(v);
    NormalIsValid(w);
    if PolicyText(v) == PolicyText(w) {
      assert PolicyText(v) + "" == PolicyText(w) + "";
      DumpUnique(Normal(v), Normal(w), "", "", COMPACT);
    }
  }
}
