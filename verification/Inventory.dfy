/** Deciding from an inventory that no writer is left: what the drain check demands, what two filters
    take out of its sight, and that neither hides a live writer. */
module Inventory {
  import opened Options
  import opened Results

  datatype Kind = PodKind | JobKind | CronJobKind | OtherKind

  /** An owner reference to a Job or to something else. */
  datatype Owner = Owner(job: bool, uid: string, controller: bool)

  /** A namespaced object. Fields of other kinds, and absent ones, have the value that means nothing. */
  datatype Item = Item(kind: Kind, name: string, uid: Option<string>, deleting: bool, owners: seq<Owner>,
                       instance: Option<string>, phase: Option<string>, node: Option<string>,
                       containers: seq<bool>, spec: string, backoff: Option<int>, active: int,
                       succeeded: bool, failed: bool, failedCondition: bool, suspended: bool)

  /** `containers` says of each container whether it is terminated. A recorded diagnostic. */
  datatype Record = Record(name: string, uid: string, spec: string)

  /** What the drain check is bound to: the storage Pods, their release, and the ready nodes. */
  datatype Scope = Scope(storage: set<string>, release: string, ready: set<string>)

  predicate Finished(pod: Item) { pod.phase == Some("Succeeded") || pod.phase == Some("Failed") }

  predicate OnReady(item: Item, ready: set<string>) { item.node.Some? && item.node.value in ready }

  // ---- The drain check -----------------------------------------------------------------------------

  /** What one object must be for the drain to be accepted. */
  predicate Quiet(item: Item, scope: Scope) {
    match item.kind
    case CronJobKind => item.suspended
    case JobKind => item.succeeded
    case PodKind =>
      Finished(item)
      || (item.name in scope.storage && !item.deleting && item.instance == Some(scope.release)
          && OnReady(item, scope.ready))
    case OtherKind => true
  }

  method ValidateDrained(items: seq<Item>, scope: Scope) returns (good: bool)
    ensures good <==> forall x :: x in items ==> Quiet(x, scope)
  {
    var i := 0;
    while i < |items|
      invariant 0 <= i <= |items| && forall j :: 0 <= j < i ==> Quiet(items[j], scope)
    {
      var item := items[i];
      assert item in items;
      if item.kind.CronJobKind? && !item.suspended { return false; }
      if item.kind.JobKind? && !item.succeeded { return false; }
      if item.kind.PodKind? && !Finished(item) {
        if item.name !in scope.storage || item.deleting || item.instance != Some(scope.release)
           || !OnReady(item, scope.ready) { return false; }
      }
      i := i + 1;
    }
    return true;
  }

  // ---- Recorded failed diagnostics --------------------------------------------------------------------

  predicate ControlledBy(item: Item, uid: string) {
    exists i :: 0 <= i < |item.owners| && item.owners[i].job && item.owners[i].uid == uid && item.owners[i].controller
  }

  predicate NamedJob(item: Item, name: string) { item.kind.JobKind? && item.name == name }

  predicate PodOf(item: Item, uid: string) { item.kind.PodKind? && ControlledBy(item, uid) }

  /** The recorded Job, unchanged and finally failed. */
  predicate SameFailed(job: Item, r: Record) {
    && job.uid == Some(r.uid) && !job.deleting && job.spec == r.spec && job.backoff == Some(0)
    && job.active == 0 && job.failed && job.failedCondition
  }

  /** A Pod none of whose containers can still run. */
  predicate Dead(pod: Item, ready: set<string>) {
    && Finished(pod) && OnReady(pod, ready) && pod.containers != []
    && forall i :: 0 <= i < |pod.containers| ==> pod.containers[i]
  }

  function Jobs(items: seq<Item>, name: string): seq<Item> {
    if items == [] then [] else (if NamedJob(items[0], name) then [items[0]] else []) + Jobs(items[1..], name)
  }

  predicate Retired(items: seq<Item>, r: Record, ready: set<string>) {
    && |Jobs(items, r.name)| == 1 && SameFailed(Jobs(items, r.name)[0], r)
    && forall x :: x in items && PodOf(x, r.uid) ==> Dead(x, ready)
  }

  /** The uids the filter takes out of sight. */
  function Hidden(items: seq<Item>, records: seq<Record>): set<Option<string>> {
    (set i | 0 <= i < |records| :: Some(records[i].uid))
    + (set i, j | 0 <= i < |records| && 0 <= j < |items| && PodOf(items[j], records[i].uid) :: items[j].uid)
  }

  function Keep(items: seq<Item>, hidden: set<Option<string>>): seq<Item> {
    if items == [] then [] else (if items[0].uid in hidden then [] else [items[0]]) + Keep(items[1..], hidden)
  }

  lemma {:induction false} KeepMembers(items: seq<Item>, hidden: set<Option<string>>)
    ensures forall x :: x in Keep(items, hidden) <==> x in items && x.uid !in hidden
  {
    if items != [] {
      KeepMembers(items[1..], hidden);
      assert items == [items[0]] + items[1..];
    }
  }

  lemma {:induction false} JobsMembers(items: seq<Item>, name: string)
    ensures forall x :: x in Jobs(items, name) <==> x in items && NamedJob(x, name)
  {
    if items != [] {
      JobsMembers(items[1..], name);
      assert items == [items[0]] + items[1..];
    }
  }

  /** The Pods of a Job, when they are all dead. */
  method DeadPods(items: seq<Item>, uid: string, ready: set<string>) returns (pods: set<Option<string>>, dead: bool)
    ensures dead <==> forall x :: x in items && PodOf(x, uid) ==> Dead(x, ready)
    ensures dead ==> pods == set k | 0 <= k < |items| && PodOf(items[k], uid) :: items[k].uid
  {
    hide PodOf, Dead;
    pods := {};
    var j := 0;
    while j < |items|
      invariant 0 <= j <= |items|
      invariant pods == set k | 0 <= k < j && PodOf(items[k], uid) :: items[k].uid
      invariant forall k :: 0 <= k < j && PodOf(items[k], uid) ==> Dead(items[k], ready)
    {
      if PodOf(items[j], uid) {
        assert items[j] in items;
        if !Dead(items[j], ready) { return pods, false; }
        pods := pods + {items[j].uid};
      }
      j := j + 1;
    }
    return pods, true;
  }

  /** Refused unless every record is of a finally failed Job without a process; otherwise what is left
      once those Jobs and their Pods are out of sight. */
  method FilterRetired(items: seq<Item>, records: seq<Record>, ready: set<string>) returns (r: Result<seq<Item>>)
    ensures r.Ok? <==> forall i :: 0 <= i < |records| ==> Retired(items, records[i], ready)
    ensures r.Ok? ==> r.value == Keep(items, Hidden(items, records))
  {
    hide PodOf, Dead, SameFailed;
    var hidden: set<Option<string>> := {};
    var i := 0;
    while i < |records|
      invariant 0 <= i <= |records| && hidden == Hidden(items, records[..i])
      invariant forall k :: 0 <= k < i ==> Retired(items, records[k], ready)
    {
      var record := records[i];
      var matches := Jobs(items, record.name);
      if |matches| != 1 || !SameFailed(matches[0], record) { return Refused; }
      var pods, dead := DeadPods(items, record.uid, ready);
      if !dead { return Refused; }
      HiddenMore(items, records, i, pods);
      hidden := hidden + pods + {Some(record.uid)};
      i := i + 1;
    }
    assert records[..i] == records;
    return Ok(Keep(items, hidden));
  }

  lemma HiddenMore(items: seq<Item>, records: seq<Record>, i: nat, pods: set<Option<string>>)
    requires i < |records|
    requires pods == set k | 0 <= k < |items| && PodOf(items[k], records[i].uid) :: items[k].uid
    ensures Hidden(items, records[..i + 1]) == Hidden(items, records[..i]) + pods + {Some(records[i].uid)}
  {
    hide PodOf;
    var a, b := records[..i + 1], records[..i];
    assert a == b + [records[i]];
    assert forall k :: 0 <= k < i ==> a[k] == b[k];
  }

  // ---- The Job under observation ----------------------------------------------------------------------

  predicate Observed(item: Item, uid: string) {
    (item.kind.JobKind? && item.uid == Some(uid)) || PodOf(item, uid)
  }

  /** The inventory without one Job and its Pods. */
  function WaitInventory(items: seq<Item>, uid: string): seq<Item> {
    if items == [] then []
    else (if Observed(items[0], uid) then [] else [items[0]]) + WaitInventory(items[1..], uid)
  }

  lemma {:induction false} WaitMembers(items: seq<Item>, uid: string)
    ensures forall x :: x in WaitInventory(items, uid) <==> x in items && !Observed(x, uid)
  {
    if items != [] {
      WaitMembers(items[1..], uid);
      assert items == [items[0]] + items[1..];
    }
  }

  // ---- Nothing alive is hidden ------------------------------------------------------------------------

  predicate UniqueUids(items: seq<Item>) {
    forall i, j :: 0 <= i < |items| && 0 <= j < |items| && items[i].uid == items[j].uid ==> items[i] == items[j]
  }

  /** A recorded diagnostic Job, or a Pod of one. */
  predicate OfRecord(item: Item, records: seq<Record>, ready: set<string>) {
    exists i :: 0 <= i < |records| &&
      ((item.kind.JobKind? && item.name == records[i].name && SameFailed(item, records[i]))
       || (PodOf(item, records[i].uid) && Dead(item, ready)))
  }

  /** An object out of the filter's sight is of a record, and dead. */
  lemma HiddenIsDead(items: seq<Item>, records: seq<Record>, ready: set<string>, x: Item)
    requires UniqueUids(items) && forall i :: 0 <= i < |records| ==> Retired(items, records[i], ready)
    requires x in items
    ensures x.uid in Hidden(items, records) <==> OfRecord(x, records, ready)
  {
    hide Dead, PodOf;
    if x.uid in Hidden(items, records) {
      if i :| 0 <= i < |records| && x.uid == Some(records[i].uid) {
        var job := Jobs(items, records[i].name)[0];
        JobsMembers(items, records[i].name);
        assert job in Jobs(items, records[i].name);
        SameUid(items, x, job);
      } else {
        var i, j :| 0 <= i < |records| && 0 <= j < |items| && PodOf(items[j], records[i].uid) && items[j].uid == x.uid;
        assert Retired(items, records[i], ready);
        SameUid(items, x, items[j]);
      }
    }
    if OfRecord(x, records, ready) {
      var i :| 0 <= i < |records| &&
        ((x.kind.JobKind? && x.name == records[i].name && SameFailed(x, records[i]))
         || (PodOf(x, records[i].uid) && Dead(x, ready)));
      var j :| 0 <= j < |items| && items[j] == x;
    }
  }

  lemma SameUid(items: seq<Item>, x: Item, y: Item)
    requires UniqueUids(items) && x in items && y in items && x.uid == y.uid
    ensures x == y
  {}

  /** The drain check accepts what both filters leave exactly when every object of the whole inventory
      is quiet, belongs to the Job under observation, or is a recorded diagnostic that is dead. */
  lemma DrainSeesEveryWriter(items: seq<Item>, records: seq<Record>, scope: Scope, job: Option<string>)
    requires UniqueUids(items) && forall i :: 0 <= i < |records| ==> Retired(items, records[i], scope.ready)
    ensures var kept := Keep(items, Hidden(items, records));
      var seen := if job.Some? then WaitInventory(kept, job.value) else kept;
      (forall x :: x in seen ==> Quiet(x, scope))
      <==> forall x :: x in items ==>
             Quiet(x, scope) || (job.Some? && Observed(x, job.value)) || OfRecord(x, records, scope.ready)
  {
    var hidden := Hidden(items, records);
    var kept := Keep(items, hidden);
    KeepMembers(items, hidden);
    if job.Some? { WaitMembers(kept, job.value); }
    forall x | x in items ensures x.uid in hidden <==> OfRecord(x, records, scope.ready) {
      HiddenIsDead(items, records, scope.ready, x);
    }
    hide Keep, Hidden, OfRecord, Observed, Quiet, Retired, UniqueUids, WaitInventory;
  }

  /** In particular a Pod that may still run is a storage Pod on a ready node or the observed Job's. */
  lemma LivePodsAreKnown(items: seq<Item>, records: seq<Record>, scope: Scope, job: Option<string>, pod: Item)
    requires UniqueUids(items) && forall i :: 0 <= i < |records| ==> Retired(items, records[i], scope.ready)
    requires var kept := Keep(items, Hidden(items, records));
      var seen := if job.Some? then WaitInventory(kept, job.value) else kept;
      forall x :: x in seen ==> Quiet(x, scope)
    requires pod in items && pod.kind.PodKind? && !Finished(pod)
    ensures (pod.name in scope.storage && OnReady(pod, scope.ready) && !pod.deleting)
         || (job.Some? && PodOf(pod, job.value))
  {
    DrainSeesEveryWriter(items, records, scope, job);
    hide Keep, Hidden, Retired, UniqueUids, WaitInventory;
  }
}
