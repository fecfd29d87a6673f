/** The reverse pass of the mail-scope audit: pages of documents, pages of their rows, batches of the
    identities those rows should have in the index. */
module MailAudit {

  /** A canonical row; ids ascend from 1, documents are named by ascending numbers from 1. */
  datatype Row = Row(id: nat, doc: nat, key: string)

  /** An identity a row should have, with its document. */
  type Identity = (string, nat)

  /** The tables, the identities a row should have, and whether the index has one for a document. */
  datatype Store = Store(docs: seq<nat>, rows: seq<Row>, identities: Row -> seq<Identity>,
                         present: Identity -> bool)
  {
    predicate Ordered() { Ascending(docs, DocKey) && Ascending(rows, RowKey) }
  }

  // ---- Keyset queries ------------------------------------------------------------------------------

  /** Keys ascend strictly, from above 0. */
  predicate Ascending<T>(s: seq<T>, key: T -> nat) {
    && (forall i :: 0 <= i < |s| ==> key(s[i]) > 0)
    && (forall i, j :: 0 <= i < j < |s| ==> key(s[i]) < key(s[j]))
  }

  function RowKey(r: Row): nat { r.id }
  function DocKey(d: nat): nat { d }

  /** What a query selects above a key. */
  function After<T>(s: seq<T>, key: T -> nat, last: nat): seq<T> {
    if s == [] then [] else (if key(s[0]) > last then [s[0]] else []) + After(s[1..], key, last)
  }

  function Take<T>(s: seq<T>, n: nat): seq<T> { if |s| > n then s[..n] else s }

  lemma {:induction false} AllAfter<T>(s: seq<T>, key: T -> nat, last: nat)
    requires forall i :: 0 <= i < |s| ==> key(s[i]) > last
    ensures After(s, key, last) == s
  {
    if s != [] { AllAfter(s[1..], key, last); }
  }

  /** The key of the last of the first `n`. */
  function LastKey<T>(s: seq<T>, key: T -> nat, n: nat): nat
    requires n <= |s|
  {
    if n == 0 then 0 else key(s[n - 1])
  }

  /** A query above the key of the `n`-th selects exactly what comes after it. */
  lemma {:induction false} AfterResumes<T>(s: seq<T>, key: T -> nat, n: nat)
    requires Ascending(s, key) && n <= |s|
    ensures After(s, key, LastKey(s, key, n)) == s[n..]
  {
    if n == 0 {
      AllAfter(s, key, 0);
    } else if n == 1 {
      AllAfter(s[1..], key, key(s[0]));
    } else {
      assert key(s[0]) < key(s[n - 1]);
      AfterResumes(s[1..], key, n - 1);
    }
  }

  /** A page from a keyset query is the next stretch, and its last key resumes after it. */
  lemma NextPage<T>(s: seq<T>, key: T -> nat, done: nat, size: nat)
    requires Ascending(s, key) && done <= |s| && size > 0
    ensures var page := Take(After(s, key, LastKey(s, key, done)), size);
      && done + |page| <= |s| && page == s[done..done + |page|] && (page == [] <==> done == |s|)
      && (page != [] ==> LastKey(s, key, done + |page|) == key(page[|page| - 1]))
  {
    AfterResumes(s, key, done);
    hide After;
  }

  // ---- Expected and missing identities -----------------------------------------------------------------

  function RowsOf(rows: seq<Row>, docs: seq<nat>): seq<Row> {
    if rows == [] then []
    else (if rows[0].doc in docs then [rows[0]] else []) + RowsOf(rows[1..], docs)
  }

  function Expected(st: Store, rows: seq<Row>): seq<Identity> {
    if rows == [] then [] else st.identities(rows[0]) + Expected(st, rows[1..])
  }

  function Absent(st: Store, es: seq<Identity>): seq<Identity> {
    if es == [] then [] else (if st.present(es[0]) then [] else [es[0]]) + Absent(st, es[1..])
  }

  predicate Distinct(es: seq<Identity>) {
    forall i, j :: 0 <= i < j < |es| ==> es[i].0 != es[j].0
  }

  lemma {:induction false} ExpectedJoins(st: Store, a: seq<Row>, b: seq<Row>)
    ensures Expected(st, a + b) == Expected(st, a) + Expected(st, b)
  {
    if a == [] {
      assert a + b == b;
    } else {
      assert (a + b)[1..] == a[1..] + b;
      ExpectedJoins(st, a[1..], b);
    }
  }

  lemma {:induction false} AbsentJoins(st: Store, a: seq<Identity>, b: seq<Identity>)
    ensures Absent(st, a + b) == Absent(st, a) + Absent(st, b)
  {
    if a == [] {
      assert a + b == b;
    } else {
      assert (a + b)[1..] == a[1..] + b;
      AbsentJoins(st, a[1..], b);
    }
  }

  lemma {:induction false} AbsentMembers(st: Store, es: seq<Identity>)
    ensures forall e :: e in Absent(st, es) <==> e in es && !st.present(e)
  {
    if es != [] {
      AbsentMembers(st, es[1..]);
      assert es == [es[0]] + es[1..];
    }
  }

  lemma {:induction false} RowsOfMembers(rows: seq<Row>, docs: seq<nat>)
    ensures forall r :: r in RowsOf(rows, docs) <==> r in rows && r.doc in docs
  {
    if rows != [] {
      RowsOfMembers(rows[1..], docs);
      assert rows == [rows[0]] + rows[1..];
    }
  }

  lemma {:induction false} RowsOfAscend(rows: seq<Row>, docs: seq<nat>)
    requires Ascending(rows, RowKey)
    ensures Ascending(RowsOf(rows, docs), RowKey)
  {
    if rows != [] {
      var tail := rows[1..];
      assert Ascending(tail, RowKey);
      RowsOfAscend(tail, docs);
      RowsOfMembers(tail, docs);
      var rest := RowsOf(tail, docs);
      assert RowsOf(rows, docs) == (if rows[0].doc in docs then [rows[0]] else []) + rest;
      hide RowsOf;
      forall i | 0 <= i < |rest| ensures rest[i].id > rows[0].id {
        assert rest[i] in tail;
        var j :| 0 <= j < |tail| && tail[j] == rest[i];
        assert RowKey(rows[0]) < RowKey(rows[j + 1]);
      }
    }
  }

  /** Ids of a batch, as a dictionary keeps them. */
  ghost function Ids(es: seq<Identity>): set<string> { set i | 0 <= i < |es| :: es[i].0 }

  lemma {:induction false} DistinctCount(es: seq<Identity>)
    requires Distinct(es)
    ensures |Ids(es)| == |es|
  {
    if es != [] {
      var init, last := es[..|es| - 1], es[|es| - 1];
      DistinctCount(init);
      assert Ids(es) == Ids(init) + {last.0};
      assert last.0 !in Ids(init);
    }
  }

  // ---- Pages of documents share the rows out ------------------------------------------------------------

  lemma {:induction false} RowsShared(st: Store, rows: seq<Row>, a: seq<nat>, b: seq<nat>)
    requires forall d :: d in a ==> d !in b
    ensures multiset(RowsOf(rows, a + b)) == multiset(RowsOf(rows, a)) + multiset(RowsOf(rows, b))
    ensures |Absent(st, Expected(st, RowsOf(rows, a + b)))|
         == |Absent(st, Expected(st, RowsOf(rows, a)))| + |Absent(st, Expected(st, RowsOf(rows, b)))|
  {
    if rows != [] {
      var tail := rows[1..];
      RowsShared(st, tail, a, b);
      hide Absent;
      HeadRow(st, rows, a + b);
      HeadRow(st, rows, a);
      HeadRow(st, rows, b);
    }
  }

  lemma HeadRow(st: Store, rows: seq<Row>, docs: seq<nat>)
    requires rows != []
    ensures var head, rest := rows[0], RowsOf(rows[1..], docs);
      && RowsOf(rows, docs) == (if head.doc in docs then [head] else []) + rest
      && Expected(st, RowsOf(rows, docs)) == (if head.doc in docs then st.identities(head) else []) + Expected(st, rest)
      && |Absent(st, Expected(st, RowsOf(rows, docs)))|
           == (if head.doc in docs then |Absent(st, st.identities(head))| else 0) + |Absent(st, Expected(st, rest))|
  {
    var head, rest := rows[0], RowsOf(rows[1..], docs);
    if head.doc in docs {
      assert ([head] + rest)[1..] == rest;
      AbsentJoins(st, st.identities(head), Expected(st, rest));
    } else {
      assert [] + rest == rest && [] + Expected(st, rest) == Expected(st, rest);
    }
  }

  lemma DistinctParts(a: seq<Identity>, b: seq<Identity>)
    requires Distinct(a + b)
    ensures Distinct(a) && Distinct(b)
    ensures forall x, y :: x in a && y in b ==> x.0 != y.0
  {
    var c := a + b;
    forall i | 0 <= i < |a| ensures c[i] == a[i] {}
    forall i | 0 <= i < |b| ensures c[|a| + i] == b[i] {}
    forall x, y | x in a && y in b ensures x.0 != y.0 {
      var i :| 0 <= i < |a| && a[i] == x;
      var j :| 0 <= j < |b| && b[j] == y;
      assert c[i].0 != c[|a| + j].0;
    }
  }

  lemma DistinctWhole(a: seq<Identity>, b: seq<Identity>)
    requires Distinct(a) && Distinct(b) && forall x, y :: x in a && y in b ==> x.0 != y.0
    ensures Distinct(a + b)
  {
    var c := a + b;
    forall i, j | 0 <= i < j < |c| ensures c[i].0 != c[j].0 {
      if i < |a| <= j { assert a[i] in a && b[j - |a|] in b; }
    }
  }

  /** Fewer documents expect fewer identities, distinct if they all are. */
  lemma {:induction false} FewerDocs(st: Store, rows: seq<Row>, docs: seq<nat>, some: seq<nat>)
    requires forall d :: d in some ==> d in docs
    requires Distinct(Expected(st, RowsOf(rows, docs)))
    ensures Distinct(Expected(st, RowsOf(rows, some)))
    ensures forall e :: e in Expected(st, RowsOf(rows, some)) ==> e in Expected(st, RowsOf(rows, docs))
  {
    if rows != [] {
      HeadRow(st, rows, docs);
      HeadRow(st, rows, some);
      var tail := rows[1..];
      hide Expected, RowsOf, Absent;
      var mine := if rows[0].doc in docs then st.identities(rows[0]) else [];
      DistinctParts(mine, Expected(st, RowsOf(tail, docs)));
      FewerDocs(st, tail, docs, some);
      DistinctWhole(if rows[0].doc in some then mine else [], Expected(st, RowsOf(tail, some)));
    }
  }

  // ---- One batch ---------------------------------------------------------------------------------------

  /** The batch as a dictionary: the last document of an identity counts. */
  function Dict(es: seq<Identity>): map<string, nat> {
    if es == [] then map[] else Dict(es[..|es| - 1])[es[|es| - 1].0 := es[|es| - 1].1]
  }

  lemma {:induction false} DictMembers(es: seq<Identity>)
    requires Distinct(es)
    ensures forall id :: id in Dict(es) ==> (id, Dict(es)[id]) in es
    ensures forall e :: e in es ==> e.0 in Dict(es) && Dict(es)[e.0] == e.1
  {
    if es != [] {
      var init, last := es[..|es| - 1], es[|es| - 1];
      DictMembers(init);
      assert es == init + [last];
      forall e | e in init ensures e.0 != last.0 {
        var i :| 0 <= i < |init| && init[i] == e;
        assert es[i].0 != es[|es| - 1].0;
      }
    }
  }

  lemma {:induction false} AbsentDistinct(st: Store, es: seq<Identity>)
    requires Distinct(es)
    ensures Distinct(Absent(st, es))
  {
    if es != [] {
      assert es == [es[0]] + es[1..];
      DistinctParts([es[0]], es[1..]);
      AbsentDistinct(st, es[1..]);
      AbsentMembers(st, es[1..]);
      DistinctWhole(if st.present(es[0]) then [] else [es[0]], Absent(st, es[1..]));
    }
  }

  /** The identities of a batch that the index lacks. */
  method AuditBatch(st: Store, batch: seq<Identity>) returns (missing: nat)
    ensures Distinct(batch) ==> missing == |Absent(st, batch)|
  {
    var expected := Dict(batch);
    var lacking := set id | id in expected && !st.present((id, expected[id]));
    missing := |lacking|;
    if Distinct(batch) {
      DictMembers(batch);
      AbsentMembers(st, batch);
      AbsentDistinct(st, batch);
      DistinctCount(Absent(st, batch));
      LackingIds(st, batch, lacking);
    }
  }

  lemma LackingIds(st: Store, batch: seq<Identity>, lacking: set<string>)
    requires forall id :: id in Dict(batch) ==> (id, Dict(batch)[id]) in batch
    requires forall e :: e in batch ==> e.0 in Dict(batch) && Dict(batch)[e.0] == e.1
    requires forall e :: e in Absent(st, batch) <==> e in batch && !st.present(e)
    requires lacking == set id | id in Dict(batch) && !st.present((id, Dict(batch)[id]))
    ensures lacking == Ids(Absent(st, batch))
  {
    hide Dict, Absent;
    var absent := Absent(st, batch);
    forall id ensures id in lacking <==> id in Ids(absent) {
      if id in lacking {
        assert (id, Dict(batch)[id]) in absent;
        var i :| 0 <= i < |absent| && absent[i] == (id, Dict(batch)[id]);
      }
      if id in Ids(absent) {
        var i :| 0 <= i < |absent| && absent[i].0 == id;
        assert absent[i] in absent;
      }
    }
  }

  // ---- The nested scan -----------------------------------------------------------------------------------

  /** The identities of one page of rows, a batch at a time. */
  method AuditIdentities(st: Store, es: seq<Identity>, size: nat) returns (missing: nat)
    requires size > 0
    ensures Distinct(es) ==> missing == |Absent(st, es)|
  {
    missing := 0;
    var rest := es;
    ghost var done := 0;
    while rest != []
      invariant 0 <= done <= |es| && rest == es[done..]
      invariant Distinct(es) ==> missing == |Absent(st, es[..done])|
      decreases |rest|
    {
      var batch := Take(rest, size);
      var more := AuditBatch(st, batch);
      missing := missing + more;
      assert es[..done + |batch|] == es[..done] + batch;
      AbsentJoins(st, es[..done], batch);
      done := done + |batch|;
      rest := rest[|batch|..];
    }
    assert es[..done] == es;
  }

  lemma RowsAscend(st: Store, docs: seq<nat>)
    requires st.Ordered()
    ensures Ascending(RowsOf(st.rows, docs), RowKey)
  {
    RowsOfAscend(st.rows, docs);
  }

  /** One page of rows above the key of the `done`-th, and what the index lacks of it. */
  method AuditPage(st: Store, docs: seq<nat>, size: nat, last: nat, ghost done: nat)
      returns (missing: nat, page: seq<Row>)
    requires st.Ordered() && size > 0
    requires done <= |RowsOf(st.rows, docs)| && last == LastKey(RowsOf(st.rows, docs), RowKey, done)
    ensures done + |page| <= |RowsOf(st.rows, docs)| && page == RowsOf(st.rows, docs)[done..done + |page|]
    ensures page == [] <==> done == |RowsOf(st.rows, docs)|
    ensures page != [] ==> LastKey(RowsOf(st.rows, docs), RowKey, done + |page|) == RowKey(page[|page| - 1])
    ensures var all := RowsOf(st.rows, docs);
      Distinct(Expected(st, all)) ==> Lacking(st, all[..done + |page|]) == Lacking(st, all[..done]) + missing
  {
    ghost var all := RowsOf(st.rows, docs);
    hide RowsOf, Expected, Absent, Lacking, After, Distinct, Ascending, Take, Store.Ordered;
    RowsAscend(st, docs);
    NextPage(all, RowKey, done, size);
    page := Take(After(RowsOf(st.rows, docs), RowKey, last), size);
    RowsStep(st, all, done, done + |page|);
    missing := AuditIdentities(st, Expected(st, page), size);
  }

  /** The rows of a page of documents, a page of rows at a time. The rows `seen` are all of theirs,
      each once and in order. */
  method AuditRows(st: Store, docs: seq<nat>, size: nat) returns (missing: nat, seen: seq<Row>)
    requires st.Ordered() && size > 0
    ensures seen == RowsOf(st.rows, docs)
    ensures Distinct(Expected(st, RowsOf(st.rows, docs))) ==> missing == Lacking(st, RowsOf(st.rows, docs))
  {
    hide RowsOf, Expected, Lacking, Distinct, Store.Ordered;
    ghost var all := RowsOf(st.rows, docs);
    NothingYet(st, all);
    var last := 0;
    missing, seen := 0, [];
    while true
      invariant seen <= all && last == LastKey(all, RowKey, |seen|)
      invariant Distinct(Expected(st, all)) ==> missing == Lacking(st, all[..|seen|])
      decreases |all| - |seen|
    {
      var more, page := AuditPage(st, docs, size, last, |seen|);
      if page == [] { break; }
      missing, seen := missing + more, seen + page;
      last := RowKey(page[|page| - 1]);
    }
    assert all[..|all|] == all;
  }

  /** How many identities of some rows the index lacks. */
  function Lacking(st: Store, rows: seq<Row>): nat { |Absent(st, Expected(st, rows))| }

  lemma RowsStep(st: Store, rows: seq<Row>, i: nat, j: nat)
    requires i <= j <= |rows|
    ensures Lacking(st, rows[..j]) == Lacking(st, rows[..i]) + |Absent(st, Expected(st, rows[i..j]))|
    ensures Distinct(Expected(st, rows)) ==> Distinct(Expected(st, rows[i..j]))
  {
    hide Distinct;
    ExpectedSplit(st, rows, i, j);
    AbsentJoins(st, Expected(st, rows[..i]), Expected(st, rows[i..j]));
    hide Expected, Absent;
  }

  lemma NothingYet(st: Store, rows: seq<Row>)
    ensures Lacking(st, rows[..0]) == 0
  {}

  lemma ExpectedSplit(st: Store, rows: seq<Row>, i: nat, j: nat)
    requires i <= j <= |rows|
    ensures Expected(st, rows[..j]) == Expected(st, rows[..i]) + Expected(st, rows[i..j])
    ensures Distinct(Expected(st, rows)) ==> Distinct(Expected(st, rows[i..j]))
  {
    assert rows[..j] == rows[..i] + rows[i..j];
    assert rows == rows[..j] + rows[j..];
    ExpectedJoins(st, rows[..i], rows[i..j]);
    ExpectedJoins(st, rows[..j], rows[j..]);
    if Distinct(Expected(st, rows)) {
      DistinctParts(Expected(st, rows[..j]), Expected(st, rows[j..]));
      DistinctParts(Expected(st, rows[..i]), Expected(st, rows[i..j]));
    }
  }

  /** The whole pass: it ends, looks at each document once in order and at each of their rows once,
      and when the expected identities are distinct counts exactly those the index lacks. */
  method AuditMissing(st: Store, size: nat) returns (missing: nat, docs: seq<nat>, seen: seq<Row>)
    requires st.Ordered() && size > 0
    ensures docs == st.docs
    ensures multiset(seen) == multiset(RowsOf(st.rows, st.docs))
    ensures Distinct(Expected(st, RowsOf(st.rows, st.docs))) ==>
              missing == |Ids(Absent(st, Expected(st, RowsOf(st.rows, st.docs))))|
  {
    hide RowsOf, Expected, Absent, Lacking, Distinct, Store.Ordered;
    ghost var all := RowsOf(st.rows, st.docs);
    NoDocs(st);
    var last := 0;
    missing, docs, seen := 0, [], [];
    while true
      invariant docs <= st.docs && last == LastKey(st.docs, DocKey, |docs|)
      invariant multiset(seen) == multiset(RowsOf(st.rows, docs))
      invariant Distinct(Expected(st, all)) ==> missing == Lacking(st, RowsOf(st.rows, docs))
      decreases |st.docs| - |docs|
    {
      var more, page, rows := AuditDocs(st, size, last, docs);
      if page == [] { break; }
      missing, docs, seen := missing + more, docs + page, seen + rows;
      last := DocKey(page[|page| - 1]);
    }
    assert st.docs[..|st.docs|] == st.docs;
    if Distinct(Expected(st, all)) { LackingAreIds(st, all); }
  }

  /** One page of documents after those `done`, and the rows looked at for them. */
  method AuditDocs(st: Store, size: nat, last: nat, ghost done: seq<nat>)
      returns (missing: nat, page: seq<nat>, rows: seq<Row>)
    requires st.Ordered() && size > 0 && done <= st.docs && last == LastKey(st.docs, DocKey, |done|)
    ensures done + page <= st.docs && (page == [] <==> done == st.docs)
    ensures page != [] ==> LastKey(st.docs, DocKey, |done + page|) == DocKey(page[|page| - 1])
    ensures multiset(RowsOf(st.rows, done + page)) == multiset(RowsOf(st.rows, done)) + multiset(rows)
    ensures Distinct(Expected(st, RowsOf(st.rows, st.docs))) ==>
              Lacking(st, RowsOf(st.rows, done + page)) == Lacking(st, RowsOf(st.rows, done)) + missing
  {
    assert Ascending(st.docs, DocKey);
    hide RowsOf, Expected, Lacking, After, Distinct, Ascending, Take, Store.Ordered;
    NextPage(st.docs, DocKey, |done|, size);
    page := Take(After(st.docs, DocKey, last), size);
    NextDocs(st.docs, done, page);
    PageOfDocs(st, done, page);
    missing, rows := AuditRows(st, page, size);
  }

  lemma LackingAreIds(st: Store, rows: seq<Row>)
    requires Distinct(Expected(st, rows))
    ensures Lacking(st, rows) == |Ids(Absent(st, Expected(st, rows)))|
  {
    AbsentDistinct(st, Expected(st, rows));
    DistinctCount(Absent(st, Expected(st, rows)));
  }

  lemma {:induction false} NoRows(rows: seq<Row>)
    ensures RowsOf(rows, []) == []
  {
    if rows != [] { NoRows(rows[1..]); }
  }

  lemma NoDocs(st: Store)
    ensures RowsOf(st.rows, []) == [] && Lacking(st, []) == 0
  {
    NoRows(st.rows);
  }

  lemma NextDocs(docs: seq<nat>, done: seq<nat>, page: seq<nat>)
    requires done <= docs && |done| + |page| <= |docs| && page == docs[|done|..|done| + |page|]
    ensures done + page <= docs && (|done| == |docs| <==> done == docs)
    ensures docs == done + page + docs[|done| + |page|..]
  {
    assert docs == docs[..|done|] + docs[|done|..];
  }

  lemma PageOfDocs(st: Store, done: seq<nat>, page: seq<nat>)
    requires st.Ordered() && done + page <= st.docs
    ensures multiset(RowsOf(st.rows, done + page))
         == multiset(RowsOf(st.rows, done)) + multiset(RowsOf(st.rows, page))
    ensures Lacking(st, RowsOf(st.rows, done + page))
         == Lacking(st, RowsOf(st.rows, done)) + Lacking(st, RowsOf(st.rows, page))
    ensures Distinct(Expected(st, RowsOf(st.rows, st.docs))) ==> Distinct(Expected(st, RowsOf(st.rows, page)))
  {
    hide Expected, Absent, Distinct;
    var both := done + page;
    forall d | d in done ensures d !in page {
      var i :| 0 <= i < |done| && done[i] == d;
      forall j | 0 <= j < |page| ensures page[j] != d {
        assert both[i] == st.docs[i] && both[|done| + j] == st.docs[|done| + j];
        assert DocKey(st.docs[i]) < DocKey(st.docs[|done| + j]);
      }
    }
    RowsShared(st, st.rows, done, page);
    forall d | d in page ensures d in st.docs {
      var j :| 0 <= j < |page| && page[j] == d;
      assert both[|done| + j] == st.docs[|done| + j];
    }
    if Distinct(Expected(st, RowsOf(st.rows, st.docs))) { FewerDocs(st, st.rows, st.docs, page); }
  }
}
