/** Whether a source of a document lies in a mail message: by its ancestry up to the root. */
module MailAncestry {
  import opened Options

  datatype Scope = Document | Mail | Unknown

  /** A source row: its id, when that is a non-empty string; the id of its parent, empty when what
      stands there is not a string; and whether the row is a message. */
  datatype Source = Source(id: Option<string>, parent: Option<string>, mail: bool)

  type Nodes = map<string, Source>

  const ROOT := "root"

  // ---- Ancestry ------------------------------------------------------------------------------------

  predicate HasParent(nodes: Nodes, sid: string) {
    sid in nodes && sid != ROOT && nodes[sid].parent.Some? && nodes[sid].parent.value != ""
  }

  /** The root is `n` parents above the source. */
  predicate Reaches(nodes: Nodes, sid: string, n: nat)
    decreases n
  {
    if n == 0 then sid == ROOT && sid in nodes
    else HasParent(nodes, sid) && Reaches(nodes, nodes[sid].parent.value, n - 1)
  }

  /** A message is among the source and its `n` ancestors. */
  predicate InMail(nodes: Nodes, sid: string, n: nat)
    requires Reaches(nodes, sid, n)
    decreases n
  {
    nodes[sid].mail || (n > 0 && InMail(nodes, nodes[sid].parent.value, n - 1))
  }

  /** Unknown without a way up to the root, otherwise mail exactly when a message lies on it. */
  ghost function ScopeOf(nodes: Nodes, sid: string): Scope {
    if !Rooted(nodes, sid) then Unknown
    else
      var n: nat :| Reaches(nodes, sid, n);
      if InMail(nodes, sid, n) then Mail else Document
  }

  ghost predicate Rooted(nodes: Nodes, sid: string) { exists n: nat :: Reaches(nodes, sid, n) }

  lemma {:induction false} OneWayUp(nodes: Nodes, sid: string, m: nat, n: nat)
    requires Reaches(nodes, sid, m) && Reaches(nodes, sid, n)
    ensures m == n
    decreases m
  {
    if m > 0 && n > 0 { OneWayUp(nodes, nodes[sid].parent.value, m - 1, n - 1); }
  }

  lemma ScopeIs(nodes: Nodes, sid: string, n: nat)
    requires Reaches(nodes, sid, n)
    ensures ScopeOf(nodes, sid) == if InMail(nodes, sid, n) then Mail else Document
  {
    forall m: nat | Reaches(nodes, sid, m) ensures m == n { OneWayUp(nodes, sid, m, n); }
  }

  /** The scope of a source from its parent's. */
  function Below(scope: Scope, mail: bool): Scope {
    if scope != Unknown && mail then Mail else scope
  }

  lemma ScopeFromParent(nodes: Nodes, sid: string)
    requires sid in nodes
    ensures ScopeOf(nodes, sid)
         == if sid == ROOT then Below(Document, nodes[sid].mail)
            else if HasParent(nodes, sid) then Below(ScopeOf(nodes, nodes[sid].parent.value), nodes[sid].mail)
            else Unknown
  {
    if sid == ROOT {
      ScopeIs(nodes, sid, 0);
    } else if Rooted(nodes, sid) {
      var n: nat :| Reaches(nodes, sid, n);
      ScopeIs(nodes, sid, n);
      ScopeIs(nodes, nodes[sid].parent.value, n - 1);
    } else if HasParent(nodes, sid) {
      var p := nodes[sid].parent.value;
      forall n: nat ensures !Reaches(nodes, p, n) { assert !Reaches(nodes, sid, n + 1); }
    }
  }

  // ---- A walk up ------------------------------------------------------------------------------------

  predicate Parent(nodes: Nodes, child: string, parent: string) {
    HasParent(nodes, child) && nodes[child].parent.value == parent
  }

  /** Sources each followed by its parent, the last followed by `next`. */
  predicate Walk(nodes: Nodes, chain: seq<string>, next: string) {
    forall i :: 0 <= i < |chain| ==> Parent(nodes, chain[i], NextOf(chain, i, next))
  }

  function NextOf(chain: seq<string>, i: nat, next: string): string {
    if i + 1 < |chain| then chain[i + 1] else next
  }

  lemma {:induction false} WalkShortens(nodes: Nodes, chain: seq<string>, next: string, i: nat, n: nat) returns (m: nat)
    requires Walk(nodes, chain, next) && i < |chain| && Reaches(nodes, chain[i], n)
    ensures m < n && Reaches(nodes, next, m)
    decreases |chain| - i
  {
    assert Parent(nodes, chain[i], NextOf(chain, i, next));
    m := n - 1;
    if i + 1 < |chain| { m := WalkShortens(nodes, chain, next, i + 1, n - 1); }
  }

  lemma StrayReachesNothing(nodes: Nodes, chain: seq<string>, next: string, n: nat)
    requires Walk(nodes, chain, next) && (next !in nodes || next in chain)
    ensures !Reaches(nodes, next, n)
  {
    if next in nodes && Reaches(nodes, next, n) {
      var i: nat :| i < |chain| && chain[i] == next;
      var m := WalkShortens(nodes, chain, next, i, n);
      OneWayUp(nodes, next, n, m);
    }
  }

  /** A walk that comes back to a source it has passed, or leaves the rows, leads nowhere. */
  lemma StrayIsUnknown(nodes: Nodes, chain: seq<string>, next: string)
    requires Walk(nodes, chain, next) && (next !in nodes || next in chain)
    ensures ScopeOf(nodes, next) == Unknown
  {
    forall n: nat ensures !Reaches(nodes, next, n) { StrayReachesNothing(nodes, chain, next, n); }
    assert !Rooted(nodes, next);
  }

  // ---- All scopes at once ---------------------------------------------------------------------------

  /** What is known so far, of whole walks. */
  ghost predicate Sound(nodes: Nodes, scopes: map<string, Scope>) {
    forall k :: k in scopes ==> k in nodes && scopes[k] == ScopeOf(nodes, k)
  }

  /** The walk from a source to the first one whose scope is plain: known already, the root, without
      a parent, passed before, or missing. `end` is the scope of whatever the walk leads to. */
  method WalkUp(nodes: Nodes, scopes: map<string, Scope>, sid: string)
      returns (chain: seq<string>, end: Scope)
    requires Sound(nodes, scopes) && sid in nodes && sid !in scopes
    ensures chain != [] && chain[0] == sid
    ensures forall k :: k in chain ==> k in nodes
    ensures forall i :: 0 <= i < |chain| - 1 ==> Parent(nodes, chain[i], NextOf(chain, i, ""))
    ensures ScopeOf(nodes, chain[|chain| - 1]) == Below(end, nodes[chain[|chain| - 1]].mail)
  {
    chain, end := [], Unknown;
    var seen := {};
    var current := sid;
    while current !in scopes
      invariant Walk(nodes, chain, current) && seen == set k | k in chain
      invariant seen <= nodes.Keys && end == Unknown
      invariant if chain == [] then current == sid else chain[0] == sid
      decreases nodes.Keys - seen
    {
      if current !in nodes || current in seen {
        StrayIsUnknown(nodes, chain, current);
        ScopeFromParent(nodes, chain[|chain| - 1]);
        return;
      }
      ScopeFromParent(nodes, current);
      seen := seen + {current};
      var parent := nodes[current].parent;
      if current == ROOT {
        chain, end := chain + [current], Document;
        return;
      }
      if parent.None? || parent.value == "" {
        chain := chain + [current];
        return;
      }
      chain, current := chain + [current], parent.value;
    }
    end := scopes[current];
    ScopeFromParent(nodes, chain[|chain| - 1]);
  }

  lemma SoundWith(nodes: Nodes, scopes: map<string, Scope>, k: string)
    requires Sound(nodes, scopes) && k in nodes
    ensures Sound(nodes, scopes[k := ScopeOf(nodes, k)])
  {}

  lemma ScopeAlong(nodes: Nodes, chain: seq<string>, j: nat)
    requires j + 1 < |chain| && Parent(nodes, chain[j], NextOf(chain, j, ""))
    ensures chain[j] in nodes && ScopeOf(nodes, chain[j]) == Below(ScopeOf(nodes, chain[j + 1]), nodes[chain[j]].mail)
  {
    ScopeFromParent(nodes, chain[j]);
  }

  /** Write down the scopes of a walk, from its end back to its start. */
  method Assign(nodes: Nodes, scopes: map<string, Scope>, chain: seq<string>, end: Scope)
      returns (more: map<string, Scope>)
    requires Sound(nodes, scopes) && chain != [] && forall k :: k in chain ==> k in nodes
    requires forall i :: 0 <= i < |chain| - 1 ==> Parent(nodes, chain[i], NextOf(chain, i, ""))
    requires ScopeOf(nodes, chain[|chain| - 1]) == Below(end, nodes[chain[|chain| - 1]].mail)
    ensures Sound(nodes, more) && scopes.Keys <= more.Keys && forall k :: k in chain ==> k in more
  {
    hide ScopeOf, Sound, Parent;
    more := scopes;
    var scope, j := end, |chain|;
    while j > 0
      invariant 0 <= j <= |chain| && Sound(nodes, more)
      invariant j < |chain| ==> scope == ScopeOf(nodes, chain[j])
      invariant j == |chain| ==> scope == end
      invariant scopes.Keys <= more.Keys && forall i :: j <= i < |chain| ==> chain[i] in more
    {
      j := j - 1;
      assert chain[j] in chain;
      if j + 1 < |chain| { ScopeAlong(nodes, chain, j); }
      SoundWith(nodes, more, chain[j]);
      if scope != Unknown && nodes[chain[j]].mail { scope := Mail; }
      more := more[chain[j] := scope];
    }
  }

  /** The scope of every source, each found once. */
  method BuildMap(nodes: Nodes, order: seq<string>) returns (scopes: map<string, Scope>)
    requires forall k :: k in order <==> k in nodes
    ensures scopes.Keys == nodes.Keys
    ensures forall k :: k in nodes ==> scopes[k] == ScopeOf(nodes, k)
  {
    hide ScopeOf, Parent;
    scopes := map[];
    var i := 0;
    while i < |order|
      invariant 0 <= i <= |order| && Sound(nodes, scopes)
      invariant forall k :: k in order[..i] ==> k in scopes
    {
      if order[i] !in scopes {
        var chain, end := WalkUp(nodes, scopes, order[i]);
        scopes := Assign(nodes, scopes, chain, end);
        assert chain[0] in chain;
      }
      i := i + 1;
    }
    assert order[..i] == order;
  }

  // ---- The rows of a document -----------------------------------------------------------------------

  function ValidIds(rows: seq<Source>): set<string> {
    set i | 0 <= i < |rows| && rows[i].id.Some? && rows[i].id.value != "" :: rows[i].id.value
  }

  function Orphans(rows: seq<Source>): nat {
    if rows == [] then 0 else (if rows[0].parent.None? then 1 else 0) + Orphans(rows[1..])
  }

  function NodesOf(rows: seq<Source>): Nodes {
    if rows == [] then map[]
    else
      var before := NodesOf(rows[..|rows| - 1]);
      var last := rows[|rows| - 1];
      if last.id.Some? then before[last.id.value := last] else before
  }

  /** Every row has an id of its own, and the root and only the root has no parent. */
  predicate WellFormed(rows: seq<Source>) {
    && |ValidIds(rows)| == |rows|
    && ROOT in NodesOf(rows) && NodesOf(rows)[ROOT].parent.None? && Orphans(rows) == 1
  }

  lemma {:induction false} NodesAreIds(rows: seq<Source>)
    requires forall i :: 0 <= i < |rows| ==> rows[i].id.Some? && rows[i].id.value != ""
    ensures NodesOf(rows).Keys == ValidIds(rows)
  {
    if rows != [] {
      var init := rows[..|rows| - 1];
      NodesAreIds(init);
      forall k ensures k in ValidIds(rows) <==> k in ValidIds(init) || k == rows[|rows| - 1].id.value {
        if k in ValidIds(init) {
          var i :| 0 <= i < |init| && init[i].id.Some? && init[i].id.value != "" && init[i].id.value == k;
          assert rows[i] == init[i];
        }
        if k in ValidIds(rows) {
          var i :| 0 <= i < |rows| && rows[i].id.Some? && rows[i].id.value != "" && rows[i].id.value == k;
          if i < |init| { assert init[i] == rows[i]; }
        }
      }
    }
  }

  lemma {:induction false} FewerIds(rows: seq<Source>)
    ensures |ValidIds(rows)| <= |rows|
    ensures |ValidIds(rows)| == |rows| ==>
              forall i :: 0 <= i < |rows| ==> rows[i].id.Some? && rows[i].id.value != ""
  {
    if rows != [] {
      var init, last := rows[..|rows| - 1], rows[|rows| - 1];
      FewerIds(init);
      var more := if last.id.Some? && last.id.value != "" then {last.id.value} else {};
      forall k ensures k in ValidIds(rows) <==> k in ValidIds(init) + more {
        if k in ValidIds(init) {
          var i :| 0 <= i < |init| && init[i].id.Some? && init[i].id.value != "" && init[i].id.value == k;
          assert rows[i] == init[i];
        }
        if k in ValidIds(rows) {
          var i :| 0 <= i < |rows| && rows[i].id.Some? && rows[i].id.value != "" && rows[i].id.value == k;
          if i < |init| { assert init[i] == rows[i]; }
        }
      }
      assert ValidIds(rows) == ValidIds(init) + more;
      assert |ValidIds(init) + more| <= |ValidIds(init)| + |more|;
      assert forall i :: 0 <= i < |init| ==> init[i] == rows[i];
    }
  }

  /** The scope of every source that has an id: by its ancestry when the rows are well formed, and
      unknown for all of them otherwise. */
  method BuildMailScopeMap(rows: seq<Source>) returns (scopes: map<string, Scope>)
    ensures scopes.Keys == ValidIds(rows)
    ensures forall k :: k in scopes ==>
              scopes[k] == if WellFormed(rows) then ScopeOf(NodesOf(rows), k) else Unknown
  {
    hide ScopeOf, Orphans;
    if !WellFormed(rows) { return map k | k in ValidIds(rows) :: Unknown; }
    var nodes := NodesOf(rows);
    FewerIds(rows);
    NodesAreIds(rows);
    var order := seq(|rows|, i requires 0 <= i < |rows| => if rows[i].id.Some? then rows[i].id.value else "");
    IdsInOrder(rows, order);
    scopes := BuildMap(nodes, order);
  }

  lemma IdsInOrder(rows: seq<Source>, order: seq<string>)
    requires forall i :: 0 <= i < |rows| ==> rows[i].id.Some? && rows[i].id.value != ""
    requires |order| == |rows| && forall i :: 0 <= i < |rows| ==> order[i] == rows[i].id.value
    ensures forall k :: k in order <==> k in ValidIds(rows)
  {
    forall k ensures k in order <==> k in ValidIds(rows) {
      if k in order {
        var i :| 0 <= i < |order| && order[i] == k;
        assert rows[i].id.value == k;
      }
      if k in ValidIds(rows) {
        var i :| 0 <= i < |rows| && rows[i].id.Some? && rows[i].id.value != "" && rows[i].id.value == k;
        assert order[i] == k;
      }
    }
  }
}
