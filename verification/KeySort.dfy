/** Sorting by a text key, in code-point order and keeping the order of equal keys. */
module KeySort {
  import opened SlugOrder

  function Insert<T>(x: T, items: seq<T>, key: T -> string): seq<T> {
    if |items| == 0 || !Below(key(items[0]), key(x)) then [x] + items
    else [items[0]] + Insert(x, items[1..], key)
  }

  function Sorted<T>(items: seq<T>, key: T -> string): seq<T> {
    if |items| == 0 then [] else Insert(items[0], Sorted(items[1..], key), key)
  }

  predicate Ordered<T>(items: seq<T>, key: T -> string) {
    forall i, j :: 0 <= i < j < |items| ==> !Below(key(items[j]), key(items[i]))
  }

  /** No two of the items have one key. */
  ghost predicate KeyTells<T>(items: seq<T>, key: T -> string) {
    forall x, y :: x in items && y in items && key(x) == key(y) ==> x == y
  }

  lemma {:induction false} InsertPermutes<T>(x: T, items: seq<T>, key: T -> string)
    ensures multiset(Insert(x, items, key)) == multiset(items) + multiset{x}
  {
    if |items| > 0 && Below(key(items[0]), key(x)) {
      InsertPermutes(x, items[1..], key);
      assert items == [items[0]] + items[1..];
    }
  }

  lemma {:induction false} SortPermutes<T>(items: seq<T>, key: T -> string)
    ensures multiset(Sorted(items, key)) == multiset(items) && |Sorted(items, key)| == |items|
  {
    if |items| > 0 {
      SortPermutes(items[1..], key);
      InsertPermutes(items[0], Sorted(items[1..], key), key);
      assert items == [items[0]] + items[1..];
    }
    SameMembers(Sorted(items, key), items);
  }

  lemma SameMembers<T>(a: seq<T>, b: seq<T>)
    requires multiset(a) == multiset(b)
    ensures |a| == |b| && forall x :: x in a <==> x in b
  {
    assert |multiset(a)| == |a| && |multiset(b)| == |b|;
    forall x ensures x in a <==> x in b { assert x in multiset(a) <==> x in multiset(b); }
  }

  lemma Cancel<T>(a: multiset<T>, b: multiset<T>, x: T)
    ensures a + multiset{x} == b + multiset{x} <==> a == b
  {
    assert (a + multiset{x}) - multiset{x} == a;
    assert (b + multiset{x}) - multiset{x} == b;
  }

  lemma NotBelowTransitive(a: string, b: string, c: string)
    requires !Below(b, a) && !Below(c, b)
    ensures !Below(c, a)
  {
    BelowTrichotomy(a, b);
    BelowTrichotomy(b, c);
    BelowTrichotomy(a, c);
    if Below(a, b) && Below(b, c) { BelowTransitive(a, b, c); }
  }

  lemma {:induction false} InsertOrders<T>(x: T, items: seq<T>, key: T -> string)
    requires Ordered(items, key)
    ensures Ordered(Insert(x, items, key), key)
  {
    hide Below;
    if |items| == 0 || !Below(key(items[0]), key(x)) {
      forall j | 0 <= j < |items| ensures !Below(key(items[j]), key(x)) {
        if j > 0 { NotBelowTransitive(key(x), key(items[0]), key(items[j])); }
      }
    } else {
      var tail := items[1..];
      InsertOrders(x, tail, key);
      InsertPermutes(x, tail, key);
      BelowTrichotomy(key(items[0]), key(x));
      var more := Insert(x, tail, key);
      forall y | y in more ensures !Below(key(y), key(items[0])) {
        assert y in multiset(more);
        assert y == x || y in multiset(tail);
        if y != x {
          var i :| 0 <= i < |tail| && tail[i] == y;
          assert items[i + 1] == y;
        }
      }
    }
  }

  lemma {:induction false} SortOrders<T>(items: seq<T>, key: T -> string)
    ensures Ordered(Sorted(items, key), key)
  {
    if |items| > 0 {
      SortOrders(items[1..], key);
      InsertOrders(items[0], Sorted(items[1..], key), key);
    }
  }

  lemma LeastFirst<T>(a: seq<T>, x: T, key: T -> string)
    requires Ordered(a, key) && x in a
    ensures !Below(key(x), key(a[0]))
  {
    hide Below;
    var i :| 0 <= i < |a| && a[i] == x;
    BelowTrichotomy(key(x), key(x));
    assert i > 0 ==> !Below(key(a[i]), key(a[0]));
  }

  lemma DropFirst<T>(a: seq<T>)
    requires |a| > 0
    ensures multiset(a[1..]) == multiset(a) - multiset{a[0]} && a == [a[0]] + a[1..]
  {
    assert a == [a[0]] + a[1..];
  }

  /** With a key that tells the items apart, order leaves no choice. */
  lemma {:induction false} OrderedUnique<T>(a: seq<T>, b: seq<T>, key: T -> string)
    requires Ordered(a, key) && Ordered(b, key) && multiset(a) == multiset(b) && KeyTells(a, key)
    ensures a == b
  {
    hide Below;
    SameMembers(a, b);
    if |a| > 0 {
      assert a[0] in a && b[0] in b;
      LeastFirst(b, a[0], key);
      LeastFirst(a, b[0], key);
      BelowTrichotomy(key(a[0]), key(b[0]));
      DropFirst(a);
      DropFirst(b);
      assert forall x :: x in a[1..] ==> x in a;
      OrderedUnique(a[1..], b[1..], key);
    }
  }

  lemma StillTells<T>(a: seq<T>, b: seq<T>, key: T -> string)
    requires KeyTells(a, key) && multiset(b) == multiset(a)
    ensures KeyTells(b, key)
  {
    SameMembers(b, a);
    forall x, y | x in b && y in b && key(x) == key(y) ensures x == y { assert x in a && y in a; }
  }

  /** Sorting by such a key forgets the order and nothing else. */
  lemma SortedIff<T>(a: seq<T>, b: seq<T>, key: T -> string)
    requires KeyTells(a, key)
    ensures Sorted(a, key) == Sorted(b, key) <==> multiset(a) == multiset(b)
  {
    hide Sorted, Ordered, Below;
    SortPermutes(a, key);
    SortPermutes(b, key);
    if multiset(a) == multiset(b) {
      SortOrders(a, key);
      SortOrders(b, key);
      StillTells(a, Sorted(a, key), key);
      OrderedUnique(Sorted(a, key), Sorted(b, key), key);
    }
  }
}
