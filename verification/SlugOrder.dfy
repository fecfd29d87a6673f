/** Slugs: their order, numbered variants, and rows sorted by slug. */
module SlugOrder {

  // ---- The order of strings ----------------------------------------------------------------------

  /** Code-point order, a proper prefix first. */
  predicate Below(a: string, b: string)
    decreases |a|
  {
    if b == "" then false
    else if a == "" then true
    else if a[0] != b[0] then a[0] < b[0]
    else Below(a[1..], b[1..])
  }

  lemma {:induction false} BelowTrichotomy(a: string, b: string)
    ensures Below(a, b) || a == b || Below(b, a)
    ensures !(Below(a, b) && Below(b, a)) && (Below(a, b) ==> a != b)
    decreases |a|
  {
    if a != "" && b != "" && a[0] == b[0] {
      BelowTrichotomy(a[1..], b[1..]);
      assert a == [a[0]] + a[1..] && b == [b[0]] + b[1..];
    }
  }

  lemma {:induction false} BelowTransitive(a: string, b: string, c: string)
    requires Below(a, b) && Below(b, c)
    ensures Below(a, c)
    decreases |a|
  {
    if a != "" && a[0] == b[0] && b[0] == c[0] { BelowTransitive(a[1..], b[1..], c[1..]); }
  }

  // ---- Numbered slugs ------------------------------------------------------------------------------

  function Digit(n: nat): char
    requires n < 10
  {
    "0123456789"[n]
  }

  function Decimal(n: nat): string {
    if n < 10 then [Digit(n)] else Decimal(n / 10) + [Digit(n % 10)]
  }

  lemma {:induction false} DecimalInjective(m: nat, n: nat)
    requires Decimal(m) == Decimal(n)
    ensures m == n
    decreases m
  {
    var a, b := Decimal(m), Decimal(n);
    assert a[|a| - 1] == Digit(m % 10) && b[|b| - 1] == Digit(n % 10);
    assert m % 10 == n % 10;
    assert |a| == 1 <==> m < 10 by { DecimalLength(m); }
    assert |b| == 1 <==> n < 10 by { DecimalLength(n); }
    if m >= 10 {
      assert a[..|a| - 1] == Decimal(m / 10) && b[..|b| - 1] == Decimal(n / 10);
      DecimalInjective(m / 10, n / 10);
    }
  }

  lemma DecimalLength(n: nat)
    ensures Decimal(n) != "" && (|Decimal(n)| == 1 <==> n < 10)
  {}

  function Numbered(base: string, k: nat): string { base + "-" + Decimal(k) }

  lemma NumberedInjective(base: string, j: nat, k: nat)
    requires Numbered(base, j) == Numbered(base, k)
    ensures j == k
  {
    assert Numbered(base, j)[|base| + 1..] == Decimal(j);
    assert Numbered(base, k)[|base| + 1..] == Decimal(k);
    DecimalInjective(j, k);
  }

  /** The used slugs that are a variant of `base` with number `k` or more. */
  ghost function Ahead(base: string, used: set<string>, k: nat): set<string> {
    set s | s in used && exists j: nat :: j >= k && s == Numbered(base, j)
  }

  lemma AheadShrinks(base: string, used: set<string>, k: nat)
    requires Numbered(base, k) in used
    ensures Ahead(base, used, k + 1) < Ahead(base, used, k)
  {
    var s := Numbered(base, k);
    assert s in Ahead(base, used, k);
    if s in Ahead(base, used, k + 1) {
      var j: nat :| j >= k + 1 && s == Numbered(base, j);
      NumberedInjective(base, j, k);
    }
  }

  /** The first free variant with number `k` or more. */
  function FreshFrom(base: string, used: set<string>, k: nat): string
    decreases Ahead(base, used, k)
  {
    if Numbered(base, k) !in used then Numbered(base, k)
    else
      AheadShrinks(base, used, k);
      FreshFrom(base, used, k + 1)
  }

  function Fresh(base: string, used: set<string>): string {
    if base !in used then base else FreshFrom(base, used, 1)
  }

  /** A fresh slug is not in use, and every variant before it is. */
  lemma {:induction false} FreshFromIsFirst(base: string, used: set<string>, k: nat)
    ensures FreshFrom(base, used, k) !in used
    ensures exists n: nat :: n >= k && FreshFrom(base, used, k) == Numbered(base, n)
              && forall j: nat :: k <= j < n ==> Numbered(base, j) in used
    decreases Ahead(base, used, k)
  {
    hide Numbered;
    if Numbered(base, k) in used {
      AheadShrinks(base, used, k);
      FreshFromIsFirst(base, used, k + 1);
      var n: nat :| n >= k + 1 && FreshFrom(base, used, k + 1) == Numbered(base, n)
              && forall j: nat :: k + 1 <= j < n ==> Numbered(base, j) in used;
      assert n >= k && FreshFrom(base, used, k) == Numbered(base, n);
    } else {
      assert FreshFrom(base, used, k) == Numbered(base, k);
    }
  }

  /** The search for a slug: it ends, and finds the first free one. */
  method FindSlug(base: string, used: set<string>) returns (slug: string)
    ensures slug == Fresh(base, used) && slug !in used
    ensures slug == base || base in used
    ensures base in used ==>
              exists n: nat :: n >= 1 && slug == Numbered(base, n)
                && forall j: nat :: 1 <= j < n ==> Numbered(base, j) in used
  {
    slug := base;
    var suffix := 1;
    while slug in used
      invariant suffix >= 1
      invariant (slug == base && suffix == 1) || (base in used && suffix > 1 && slug == Numbered(base, suffix - 1))
      invariant base in used ==> Fresh(base, used) == FreshFrom(base, used, if suffix == 1 then 1 else suffix - 1)
      decreases slug == base && suffix == 1, Ahead(base, used, if suffix == 1 then 1 else suffix - 1)
    {
      if suffix > 1 { AheadShrinks(base, used, suffix - 1); }
      slug := Numbered(base, suffix);
      suffix := suffix + 1;
    }
    if slug != base || suffix > 1 { FreshFromIsFirst(base, used, 1); }
  }
}
