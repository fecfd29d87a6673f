/** Replacing the certificate of each storage controller, one controller at a time, resumable from
    wherever a crash left it. */
module StorageTls {
  import opened Options
  import opened Results
  import opened Workload
  import opened Bindings

  const TLS := "tls"

  // ---- One controller ------------------------------------------------------------------------------

  predicate TlsMounted(c: Container) {
    var m := MountsNamed(c.mounts, TLS);
    |m| == 1 && m[0].readOnly && m[0].path == "/run/tls"
  }

  predicate TlsExpected(d: Controller, names: set<string>) {
    && OneContainer(d) && TlsMounted(TheContainer(d))
    && var v := VolumesNamed(d.pod.volumes, TLS);
       |v| == 1 && v[0].source.Secret? && v[0].source.name in names
  }

  /** The Secret behind the first volume called `tls`. */
  function Certificate(d: Controller): string {
    var v := VolumesNamed(d.pod.volumes, TLS);
    if v != [] && v[0].source.Secret? then v[0].source.name else ""
  }

  function StageTls(d: Controller, previous: string, selected: string): Result<Controller> {
    if d.replicas == Some(0) && TlsExpected(d, {previous, selected}) then
      Ok(Pointing(d, TLS, selected).Clean())
    else Refused
  }

  lemma PointedTls(d: Controller, names: set<string>, a: string)
    requires TlsExpected(d, names)
    ensures var r := Pointing(d, TLS, a);
      && TlsExpected(r, {a}) && Certificate(r) == a
      && Pointing(r, TLS, a) == r && Pointing(r, TLS, Certificate(d)) == d
  {
    PointedBack(d.pod.volumes, TLS, a);
    hide VolumesNamed, Rebound, TlsMounted;
  }

  lemma PointedTwice(d: Controller, names: set<string>, a: string, b: string)
    requires TlsExpected(d, names)
    ensures Pointing(Pointing(d, TLS, a), TLS, b) == Pointing(d, TLS, b)
  {
    ReboundTwice(d.pod.volumes, TLS, a, b);
  }

  /** Staging puts the selected certificate in the one place, may be repeated, and is undone exactly
      by staging the certificate that was there. */
  lemma TlsStaged(d: Controller, previous: string, selected: string)
    requires StageTls(d, previous, selected).Ok?
    ensures var r := StageTls(d, previous, selected).value;
      && TlsExpected(r, {selected}) && Certificate(r) == selected
      && StageTls(r, previous, selected) == Ok(r)
      && StageTls(r, selected, Certificate(d)) == Ok(d.Clean())
  {
    PointedTls(d, {previous, selected}, selected);
    PointedTls(d.Clean(), {previous, selected}, selected);
    hide VolumesNamed, Rebound, TlsMounted;
  }

  predicate AssertSource(current: Controller, original: Controller, previous: string, selected: string) {
    && current.uid == original.uid && (current.replicas == Some(0) || current.replicas == Some(1))
    && var observed := StageTls(current.At(0), previous, selected);
       var expected := StageTls(original.At(0), previous, selected);
       observed.Ok? && expected.Ok? && observed.value.SameSpec(expected.value)
  }

  /** The original with another count and another certificate. */
  predicate Differs(current: Controller, original: Controller, n: nat, certificate: string) {
    current.SameSpec(Pointing(original.At(n), TLS, certificate))
  }

  /** What the source check accepts: the original controller at no or one replica, with the previous
      or the selected certificate, and nothing else changed. */
  lemma SourceIff(current: Controller, original: Controller, previous: string, selected: string)
    requires TlsExpected(original, {previous})
    ensures AssertSource(current, original, previous, selected) <==>
              && current.uid == original.uid
              && (Differs(current, original, 0, previous) || Differs(current, original, 0, selected)
                  || Differs(current, original, 1, previous) || Differs(current, original, 1, selected))
  {
    if AssertSource(current, original, previous, selected) {
      AcceptedDiffers(current, original, previous, selected);
    }
    DiffersAccepted(current, original, previous, selected, previous);
    DiffersAccepted(current, original, previous, selected, selected);
    hide AssertSource, Differs;
    if current.uid == original.uid
       && (Differs(current, original, 0, previous) || Differs(current, original, 0, selected)
           || Differs(current, original, 1, previous) || Differs(current, original, 1, selected)) {
      assert AssertSource(current, original, previous, selected);
    }
  }

  lemma AcceptedDiffers(current: Controller, original: Controller, previous: string, selected: string)
    requires TlsExpected(original, {previous}) && AssertSource(current, original, previous, selected)
    ensures var n := current.replicas.value;
      var certificate := Certificate(current);
      && (certificate == previous || certificate == selected)
      && Differs(current, original, n, certificate)
  {
    var certificate := Certificate(current);
    PointedTls(current, {previous, selected}, selected);
    PointedTwice(original, {previous}, selected, certificate);
    hide VolumesNamed, Rebound, TlsMounted;
  }

  lemma DiffersAccepted(current: Controller, original: Controller, previous: string, selected: string,
                        certificate: string)
    requires TlsExpected(original, {previous}) && certificate in {previous, selected}
    ensures current.uid == original.uid
            && (Differs(current, original, 0, certificate) || Differs(current, original, 1, certificate)) ==>
              AssertSource(current, original, previous, selected)
  {
    PointedTls(original, {previous}, certificate);
    PointedTls(original, {previous}, selected);
    PointedTwice(original, {previous}, certificate, selected);
    hide VolumesNamed, Rebound, TlsMounted;
  }

  // ---- The storage cluster ---------------------------------------------------------------------------

  datatype Role = Postgres | Qdrant | Artifacts

  datatype Pod = Pod(certificate: string, deleting: bool)

  datatype World = World(sts: map<Role, Controller>, pods: map<Role, Pod>)

  /** What the cluster does by itself, at any time. */
  datatype EnvStep = PodStarts(role: Role) | PodDeleting(role: Role) | PodGone(role: Role)

  /** What is being changed: the original controllers and their old and new certificates. */
  datatype Change = Change(original: map<Role, Controller>, previous: map<Role, string>,
                           selected: map<Role, string>)
  {
    predicate Valid() {
      forall r: Role ::
        && r in original && r in previous && r in selected
        && previous[r] != selected[r] && TlsExpected(original[r], {previous[r]})
    }
  }

  predicate Bound(d: Controller, change: Change, role: Role) {
    change.Valid() && AssertSource(d, change.original[role], change.previous[role], change.selected[role])
  }

  predicate HasSelected(w: World, change: Change, role: Role) {
    role in w.sts && role in change.selected && Certificate(w.sts[role]) == change.selected[role]
  }

  predicate At(w: World, role: Role, n: nat) { role in w.sts && w.sts[role].replicas == Some(n) }

  /** The controller is the original but for its count and certificate, and once it has the selected
      certificate its Pod serves that certificate. */
  predicate Fits(w: World, change: Change, role: Role) {
    && role in w.sts && Bound(w.sts[role], change, role)
    && (role in w.pods && HasSelected(w, change, role) ==>
          w.pods[role].certificate == change.selected[role])
  }

  predicate Inv(w: World, change: Change) { forall role: Role :: Fits(w, change, role) }

  lemma FitsShape(w: World, change: Change, role: Role)
    requires Fits(w, change, role)
    ensures change.Valid() && role in w.sts && (At(w, role, 0) || At(w, role, 1))
  {}

  function Moved(w: World, step: EnvStep): World {
    var r := step.role;
    match step
    case PodStarts(_) =>
      if r !in w.pods && At(w, r, 1)
      then w.(pods := w.pods[r := Pod(Certificate(w.sts[r]), false)]) else w
    case PodDeleting(_) =>
      if r in w.pods then w.(pods := w.pods[r := w.pods[r].(deleting := true)]) else w
    case PodGone(_) => w.(pods := w.pods - {r})
  }

  function Elapsed(w: World, steps: seq<EnvStep>): World
    decreases |steps|
  {
    if steps == [] then w else Elapsed(Moved(w, steps[0]), steps[1..])
  }

  lemma {:induction false} ElapsedFits(w: World, change: Change, steps: seq<EnvStep>, role: Role)
    requires Fits(w, change, role)
    ensures var r := Elapsed(w, steps);
      && Fits(r, change, role) && r.sts == w.sts
      && (role !in w.pods && !At(w, role, 1) ==> role !in r.pods)
    decreases |steps|
  {
    hide Bound, Certificate;
    if steps != [] { ElapsedFits(Moved(w, steps[0]), change, steps[1..], role); }
  }

  /** The cluster catching up: Pods that should not be are gone, and Pods that should be are there. */
  const SETTLE := [PodGone(Postgres), PodStarts(Postgres), PodGone(Qdrant), PodStarts(Qdrant),
                   PodGone(Artifacts), PodStarts(Artifacts)]

  predicate Settled(w: World) {
    forall role: Role ::
      && (At(w, role, 0) ==> role !in w.pods)
      && (At(w, role, 1) ==> role in w.pods && !w.pods[role].deleting)
  }

  /** The cluster catches up before each effect, whatever it does before that. */
  predicate Cooperative(env: seq<seq<EnvStep>>) {
    |env| >= 14 && forall k :: 0 <= k < |env| ==> |env[k]| >= 6 && env[k][|env[k]| - 6..] == SETTLE
  }

  lemma RestartSettles(w: World, role: Role)
    ensures var r := Moved(Moved(w, PodGone(role)), PodStarts(role));
      && r.sts == w.sts && r.pods - {role} == w.pods - {role}
      && (At(w, role, 1) <==> role in r.pods) && (role in r.pods ==> !r.pods[role].deleting)
  {
    hide Certificate;
  }

  lemma SettleSettles(w: World)
    ensures Settled(Elapsed(w, SETTLE))
  {
    RestartSettles(w, Postgres);
    var a := Moved(Moved(w, PodGone(Postgres)), PodStarts(Postgres));
    RestartSettles(a, Qdrant);
    var b := Moved(Moved(a, PodGone(Qdrant)), PodStarts(Qdrant));
    RestartSettles(b, Artifacts);
    var c := Moved(Moved(b, PodGone(Artifacts)), PodStarts(Artifacts));
    ElapsedTwo(w, PodGone(Postgres), PodStarts(Postgres), SETTLE[2..]);
    ElapsedTwo(a, PodGone(Qdrant), PodStarts(Qdrant), SETTLE[4..]);
    ElapsedTwo(b, PodGone(Artifacts), PodStarts(Artifacts), []);
    hide Elapsed, Moved;
    assert SETTLE == [PodGone(Postgres), PodStarts(Postgres)] + SETTLE[2..];
    assert SETTLE[2..] == [PodGone(Qdrant), PodStarts(Qdrant)] + SETTLE[4..];
    assert SETTLE[4..] == [PodGone(Artifacts), PodStarts(Artifacts)] + [];
    forall role: Role
      ensures (At(c, role, 1) <==> role in c.pods) && (role in c.pods ==> !c.pods[role].deleting)
    {
      match role {
        case Postgres =>
          assert Postgres in a.pods <==> Postgres in (c.pods - {Artifacts}) - {Qdrant};
        case Qdrant =>
          assert Qdrant in b.pods <==> Qdrant in c.pods - {Artifacts};
        case Artifacts =>
      }
    }
    assert Elapsed(c, []) == c by { ElapsedNone(c); }
  }

  lemma ElapsedNone(w: World)
    ensures Elapsed(w, []) == w
  {}

  lemma ElapsedTwo(w: World, s: EnvStep, t: EnvStep, rest: seq<EnvStep>)
    ensures Elapsed(w, [s, t] + rest) == Elapsed(Moved(Moved(w, s), t), rest)
  {
    hide Moved;
    assert ([s, t] + rest)[1..] == [t] + rest && ([t] + rest)[1..] == rest;
  }

  lemma {:induction false} ElapsedJoins(w: World, a: seq<EnvStep>, b: seq<EnvStep>)
    ensures Elapsed(w, a + b) == Elapsed(Elapsed(w, a), b)
    decreases |a|
  {
    hide Moved;
    if a == [] {
      assert a + b == b;
    } else {
      assert (a + b)[1..] == a[1..] + b;
      ElapsedJoins(Moved(w, a[0]), a[1..], b);
    }
  }

  lemma CooperativeSettles(w: World, env: seq<seq<EnvStep>>, k: nat)
    requires Cooperative(env) && k < |env|
    ensures Settled(Elapsed(w, env[k]))
  {
    var n := |env[k]| - 6;
    assert env[k] == env[k][..n] + SETTLE;
    ElapsedJoins(w, env[k][..n], SETTLE);
    SettleSettles(Elapsed(w, env[k][..n]));
  }

  /** A change of the world in which no certificate reference moves except, to the selected one, on
      a controller that is at zero with its Pod gone, and no Pod appears at zero. */
  predicate OrderlyAt(a: World, b: World, change: Change, role: Role) {
    && role in a.sts && role in b.sts
    && (Certificate(a.sts[role]) != Certificate(b.sts[role]) ==>
          && At(a, role, 0) && At(b, role, 0) && role !in a.pods && role !in b.pods
          && HasSelected(b, change, role))
    && (role in b.pods && role !in a.pods ==> At(b, role, 1))
  }

  predicate Orderly(a: World, b: World, change: Change) {
    forall role: Role :: OrderlyAt(a, b, change, role)
  }

  lemma ElapsedInv(w: World, change: Change, steps: seq<EnvStep>)
    requires Inv(w, change)
    ensures var r := Elapsed(w, steps);
      && Inv(r, change) && Orderly(w, r, change) && r.sts == w.sts
      && forall role: Role :: role !in w.pods && At(w, role, 0) ==> role !in r.pods
  {
    var r := Elapsed(w, steps);
    hide Elapsed, Bound, Certificate;
    forall role: Role
      ensures Fits(r, change, role) && OrderlyAt(w, r, change, role) && r.sts == w.sts
      ensures role !in w.pods && At(w, role, 0) ==> role !in r.pods
    {
      assert Fits(w, change, role);
      FitsShape(w, change, role);
      ElapsedFits(w, change, steps, role);
    }
    assert Fits(r, change, Postgres);
  }

  // ---- What an effect keeps ------------------------------------------------------------------------

  function WithController(w: World, role: Role, d: Controller): World { w.(sts := w.sts[role := d]) }

  /** A controller replaced by another that is bound as well: its certificate stays, or it becomes
      the selected one at zero and with the Pod gone. */
  lemma Replaced(w: World, change: Change, role: Role, d: Controller)
    requires Inv(w, change) && Fits(w, change, role) && Bound(d, change, role)
    requires Certificate(d) == Certificate(w.sts[role])
          || (d.replicas == Some(0) && At(w, role, 0) && role !in w.pods
              && Certificate(d) == change.selected[role])
    ensures var next := WithController(w, role, d);
      Inv(next, change) && Orderly(w, next, change)
  {
    hide Bound, AssertSource, TlsExpected, Certificate, VolumesNamed, Change.Valid;
    var next := WithController(w, role, d);
    forall r: Role ensures Fits(next, change, r) && OrderlyAt(w, next, change, r) {
      assert Fits(w, change, r);
      FitsShape(w, change, r);
    }
  }

  lemma ScaledBound(d: Controller, change: Change, role: Role, n: nat)
    requires Bound(d, change, role) && n <= 1
    ensures Bound(d.At(n), change, role) && Certificate(d.At(n)) == Certificate(d)
  {
    assert d.At(n).At(0) == d.At(0);
    hide TlsExpected, VolumesNamed, StageTls;
  }

  lemma StagedBound(d: Controller, change: Change, role: Role)
    requires Bound(d, change, role) && d.replicas == Some(0)
    ensures var r := StageTls(d, change.previous[role], change.selected[role]);
      && r.Ok? && Bound(r.value, change, role) && Certificate(r.value) == change.selected[role]
      && r.value.replicas == Some(0)
  {
    assert d.At(0) == d;
    TlsStaged(d, change.previous[role], change.selected[role]);
    var r := StageTls(d, change.previous[role], change.selected[role]).value;
    assert r.At(0) == r;
    hide TlsExpected, VolumesNamed;
  }

  // ---- The coordinator ---------------------------------------------------------------------------------

  datatype Outcome = Completed | Crashed | NotDrained | TimedOut(role: Role)

  predicate Drained(w: World) { forall r :: r in w.pods ==> !w.pods[r].deleting }

  /** The controller of `role` waits for the cluster: for a Pod to go, or for one to come. */
  predicate Waiting(w: World, role: Role) {
    if role in w.pods then w.pods[role].deleting || At(w, role, 0) else At(w, role, 1)
  }

  predicate Rotated(w: World, change: Change, role: Role) {
    At(w, role, 1) && HasSelected(w, change, role)
  }

  /** Two worlds whose controllers differ at most in `role`. */
  predicate OnlyAt(a: World, b: World, role: Role) {
    forall r: Role :: r != role ==>
      (r in a.sts <==> r in b.sts) && (r in a.sts && r in b.sts ==> a.sts[r] == b.sts[r])
  }

  lemma OnlyAtJoins(a: World, b: World, c: World, role: Role)
    requires OnlyAt(a, b, role) && OnlyAt(b, c, role)
    ensures OnlyAt(a, c, role)
  {}

  /** Worlds one after the other, each with the invariant and each orderly after the last. */
  predicate Good(trace: seq<World>, change: Change) {
    && |trace| > 0
    && (forall i :: 0 <= i < |trace| ==> Inv(trace[i], change))
    && (forall i :: 0 < i < |trace| ==> Orderly(trace[i - 1], trace[i], change))
  }

  lemma GoodMore(trace: seq<World>, change: Change, next: World)
    requires Good(trace, change) && Inv(next, change) && Orderly(trace[|trace| - 1], next, change)
    ensures Good(trace + [next], change)
  {
    hide Inv, Orderly;
  }

  lemma ScaleWorld(w: World, change: Change, role: Role, n: nat)
    requires Inv(w, change) && n <= 1
    ensures role in w.sts
    ensures var next := WithController(w, role, w.sts[role].At(n));
      && Inv(next, change) && Orderly(w, next, change) && OnlyAt(w, next, role) && At(next, role, n)
      && HasSelected(next, change, role) == HasSelected(w, change, role)
  {
    hide AssertSource, TlsExpected, Certificate, VolumesNamed, Change.Valid, Orderly;
    assert Fits(w, change, role);
    ScaledBound(w.sts[role], change, role, n);
    Replaced(w, change, role, w.sts[role].At(n));
    hide Inv, Fits, Bound, Certificate, Orderly;
  }

  lemma StageWorld(w: World, change: Change, role: Role)
    requires Inv(w, change) && At(w, role, 0) && role !in w.pods
    ensures role in w.sts && change.Valid()
    ensures var staged := StageTls(w.sts[role], change.previous[role], change.selected[role]);
      && staged.Ok?
      && var next := WithController(w, role, staged.value);
      && Inv(next, change) && Orderly(w, next, change) && OnlyAt(w, next, role) && At(next, role, 0)
      && HasSelected(next, change, role)
  {
    hide AssertSource, TlsExpected, Certificate, VolumesNamed, Orderly;
    assert Fits(w, change, role);
    StagedBound(w.sts[role], change, role);
    var staged := StageTls(w.sts[role], change.previous[role], change.selected[role]).value;
    Replaced(w, change, role, staged);
    hide Inv, Fits, Bound, Certificate, StageTls, Orderly;
  }

  class CaRotation {
    const change: Change
    var world: World
    var components: set<Role>
    var updated: bool
    ghost var trace: seq<World>    // every world this object has seen, the present one last

    ghost predicate Valid()
      reads this
    {
      Good(trace, change) && trace[|trace| - 1] == world && Inv(world, change)
    }

    constructor (change: Change, world: World)
      requires Inv(world, change)
      ensures Valid() && this.change == change && this.world == world && components == {} && !updated
    {
      this.change, this.world, components, updated := change, world, {}, false;
      trace := [world];
    }

    method Take(next: World)
      requires Valid() && Inv(next, change) && Orderly(world, next, change)
      modifies this`world, this`trace
      ensures Valid() && world == next && old(trace) <= trace
    {
      GoodMore(trace, change, next);
      hide Inv, Orderly, Good;
      world := next;
      trace := trace + [next];
    }

    /** The cluster moves for a while; then the process is still there unless its time is up. */
    method Wait(env: seq<seq<EnvStep>>, crash: nat, k: nat) returns (alive: bool)
      requires Valid()
      modifies this`world, this`trace
      ensures Valid() && old(trace) <= trace && world.sts == old(world).sts && alive == (k < crash)
      ensures forall role: Role :: role !in old(world).pods && At(old(world), role, 0) ==> role !in world.pods
      ensures Cooperative(env) && k < 14 ==> Settled(world)
    {
      var steps := if k < |env| then env[k] else [];
      ElapsedInv(world, change, steps);
      if Cooperative(env) && k < 14 { CooperativeSettles(world, env, k); }
      hide Inv, Orderly, Good, Elapsed, Settled, Cooperative;
      Take(Elapsed(world, steps));
      alive := k < crash;
    }

    /** Take the certificate of a stopped, podless controller to the selected one. */
    method Stage(role: Role)
      requires Valid() && At(world, role, 0) && role !in world.pods
      modifies this`world, this`trace
      ensures Valid() && old(trace) <= trace && OnlyAt(old(world), world, role)
      ensures At(world, role, 0) && HasSelected(world, change, role)
    {
      StageWorld(world, change, role);
      hide Inv, Fits, Bound, HasSelected, StageTls, Orderly, Good, At, OnlyAt, WithController;
      var current := world.sts[role];
      var staged := StageTls(current, change.previous[role], change.selected[role]).value;
      Take(WithController(world, role, staged));
    }

    method Scale(role: Role, n: nat)
      requires Valid() && n <= 1
      modifies this`world, this`trace
      ensures Valid() && old(trace) <= trace && OnlyAt(old(world), world, role)
      ensures At(world, role, n)
      ensures HasSelected(world, change, role) == HasSelected(old(world), change, role)
    {
      ScaleWorld(world, change, role, n);
      hide Inv, Fits, Bound, HasSelected, Orderly, Good, At, OnlyAt, WithController;
      Take(WithController(world, role, world.sts[role].At(n)));
    }

    /** Bring a controller that still has the previous certificate to zero. */
    method Stop(role: Role, env: seq<seq<EnvStep>>, crash: nat, k: nat) returns (alive: bool, next: nat)
      requires Valid()
      modifies this`world, this`trace
      ensures Valid() && old(trace) <= trace && OnlyAt(old(world), world, role)
      ensures k <= next <= k + 2 && (!alive ==> crash <= next)
      ensures alive ==> At(world, role, 0)
      ensures alive && Cooperative(env) && k < 13 ==> role !in world.pods
    {
      hide Bound, AssertSource, TlsExpected, Certificate, VolumesNamed, Change.Valid, Orderly, Good;
      assert Fits(world, change, role);
      FitsShape(world, change, role);
      hide Inv, Fits;
      next := k;
      if world.sts[role].replicas == Some(1) {
        alive := Wait(env, crash, next);
        if !alive { return; }
        next := next + 1;
        Scale(role, 0);
      }
      alive := Wait(env, crash, next);
      if alive { next := next + 1; }
    }

    /** Bring a controller to one replica and wait for its Pod. */
    method Start(role: Role, env: seq<seq<EnvStep>>, crash: nat, k: nat) returns (outcome: Outcome, next: nat)
      requires Valid() && HasSelected(world, change, role)
      modifies this`world, this`trace, this`components
      ensures Valid() && old(trace) <= trace && OnlyAt(old(world), world, role)
      ensures HasSelected(world, change, role)
      ensures outcome.Completed? ==> Rotated(world, change, role) && components == old(components) + {role}
      ensures !outcome.Completed? ==> components == old(components)
      ensures outcome.Completed? || outcome.Crashed? || outcome == TimedOut(role)
      ensures k <= next <= k + 2 && (outcome.Crashed? ==> crash <= next)
      ensures At(old(world), role, 1) ==> world.sts == old(world).sts
      ensures outcome.TimedOut? ==> Waiting(world, role)
      ensures Cooperative(env) && k < 13 ==> !outcome.TimedOut?
    {
      hide Bound, AssertSource, TlsExpected, Certificate, VolumesNamed, Change.Valid, Orderly, Good;
      assert Fits(world, change, role);
      FitsShape(world, change, role);
      hide Inv, Fits;
      next := k;
      var alive;
      if world.sts[role].replicas == Some(0) {
        alive := Wait(env, crash, next);
        if !alive { return Crashed, next; }
        next := next + 1;
        Scale(role, 1);
      }
      alive := Wait(env, crash, next);
      if !alive { return Crashed, next; }
      next := next + 1;
      if role !in world.pods || world.pods[role].deleting { return TimedOut(role), next; }
      components := components + {role};
      return Completed, next;
    }

    /** One controller's turn, from effect `k` on. The source check it starts with holds, so it ends
        only at its crash, or waiting for the cluster to remove or to start a Pod. */
    method Rotate(role: Role, env: seq<seq<EnvStep>>, crash: nat, k: nat) returns (outcome: Outcome, next: nat)
      requires Valid()
      modifies this`world, this`trace, this`components
      ensures Valid() && old(trace) <= trace && OnlyAt(old(world), world, role)
      ensures outcome.Completed? ==> Rotated(world, change, role) && components == old(components) + {role}
      ensures !outcome.Completed? ==> components == old(components)
      ensures outcome.Completed? || outcome.Crashed? || outcome == TimedOut(role)
      ensures k <= next <= k + 4 && (outcome.Crashed? ==> crash <= next)
      ensures Rotated(old(world), change, role) ==> world.sts == old(world).sts
      ensures outcome.TimedOut? ==> Waiting(world, role)
      ensures Cooperative(env) && k < 10 ==> !outcome.TimedOut?
    {
      assert Fits(world, change, role);
      FitsShape(world, change, role);
      assert AssertSource(world.sts[role], change.original[role], change.previous[role], change.selected[role]);
      hide Inv, Fits, Orderly, Good, AssertSource;
      next := k;
      ghost var before := world;
      if Certificate(world.sts[role]) != change.selected[role] {
        hide HasSelected;
        var gone;
        gone, next := Stop(role, env, crash, k);
        if !gone { return Crashed, next; }
        if role in world.pods { return TimedOut(role), next; }
        ghost var stopped := world;
        Stage(role);
        OnlyAtJoins(before, stopped, world, role);
      }
      ghost var staged := world;
      hide Certificate, OnlyAt;
      outcome, next := Start(role, env, crash, next);
      OnlyAtJoins(before, staged, world, role);
    }

    /** One run of the storage phase, whose process ends before effect number `crash`. From any state
        an earlier run may have left, nothing is refused: the run ends at its crash, or waiting for
        the cluster, or with every controller rotated, which it does whenever the process lives on and the cluster
        catches up; and rotated controllers are left alone. */
    method Storage(env: seq<seq<EnvStep>>, crash: nat) returns (outcome: Outcome)
      requires Valid()
      modifies this
      ensures Valid() && old(trace) <= trace && old(components) <= components
      ensures outcome.Completed? ==> updated && forall role: Role :: role in components && Rotated(world, change, role)
      ensures !outcome.Completed? ==> updated == old(updated)
      ensures outcome.Crashed? ==> crash <= 13
      ensures outcome.TimedOut? ==> Waiting(world, outcome.role)
      ensures outcome.NotDrained? ==> !Drained(world)
      ensures Cooperative(env) && crash > 13 ==> outcome.Completed?
      ensures (forall role: Role :: Rotated(old(world), change, role)) ==> world.sts == old(world).sts
    {
      hide Inv, Fits, Good, OnlyAt, Rotated, Orderly, Cooperative, Settled, Drained;
      ghost var before := world;
      var alive := Wait(env, crash, 0);
      if !alive { return Crashed; }
      SettledDrained(world, change);
      if !Drained(world) { return NotDrained; }
      SameRotated(before, world, change);
      var roles := [Postgres, Qdrant, Artifacts];
      var i, next := 0, 1;
      while i < |roles|
        invariant 0 <= i <= |roles| && next <= 1 + 4 * i && Valid() && old(trace) <= trace
        invariant updated == old(updated) && old(components) <= components
        invariant forall j :: 0 <= j < i ==> roles[j] in components && Rotated(world, change, roles[j])
        invariant (forall role: Role :: Rotated(before, change, role)) ==> world.sts == before.sts
      {
        ghost var last := world;
        outcome, next := Rotate(roles[i], env, crash, next);
        SameRotated(before, last, change);
        if !outcome.Completed? { return; }
        OthersRotated(last, world, change, roles[i]);
        i := i + 1;
      }
      ghost var last := world;
      alive := Wait(env, crash, next);
      if !alive { return Crashed; }
      SameRotated(last, world, change);
      SettledDrained(world, change);
      if !Drained(world) { return NotDrained; }
      updated := true;
      AllRotated(world, change, roles, components);
      return Completed;
    }
  }

  lemma SettledDrained(w: World, change: Change)
    requires Inv(w, change)
    ensures Settled(w) ==> Drained(w)
  {
    forall role: Role ensures At(w, role, 0) || At(w, role, 1) {
      assert Fits(w, change, role);
      FitsShape(w, change, role);
    }
  }

  lemma SameRotated(a: World, b: World, change: Change)
    ensures a.sts == b.sts ==> forall role: Role :: Rotated(a, change, role) == Rotated(b, change, role)
  {}

  lemma OthersRotated(a: World, b: World, change: Change, role: Role)
    requires OnlyAt(a, b, role)
    ensures forall r: Role :: r != role ==> Rotated(a, change, r) == Rotated(b, change, r)
  {}

  lemma AllRotated(w: World, change: Change, roles: seq<Role>, components: set<Role>)
    requires roles == [Postgres, Qdrant, Artifacts]
    requires forall j :: 0 <= j < 3 ==> roles[j] in components && Rotated(w, change, roles[j])
    ensures forall role: Role :: role in components && Rotated(w, change, role)
  {
    forall role: Role ensures role in components && Rotated(w, change, role) {
      assert roles[0] == Postgres && roles[1] == Qdrant && roles[2] == Artifacts;
      match role { case Postgres => case Qdrant => case Artifacts => }
    }
  }

  // ---- What a run comes to -------------------------------------------------------------------------

  /** At any moment a controller is the original but for a count of no or one replica and the
      previous or the selected certificate; rotated, it is the original at one replica with the
      selected certificate. */
  lemma WorldIsOriginal(w: World, change: Change, role: Role)
    requires Inv(w, change)
    ensures change.Valid() && role in w.sts && w.sts[role].uid == change.original[role].uid
    ensures exists n: nat, c :: n <= 1 && c in {change.previous[role], change.selected[role]}
              && Differs(w.sts[role], change.original[role], n, c)
    ensures Rotated(w, change, role) ==>
              Differs(w.sts[role], change.original[role], 1, change.selected[role])
    ensures Rotated(w, change, role) && role in w.pods ==>
              w.pods[role].certificate == change.selected[role]
  {
    hide TlsExpected, VolumesNamed, Pointing;
    assert Fits(w, change, role);
    AcceptedDiffers(w.sts[role], change.original[role], change.previous[role], change.selected[role]);
  }

  /** Along everything an object has seen, a certificate reference only ever moves to the selected
      one, on a controller at zero whose Pod is gone, and never moves again. */
  lemma {:induction false} CertificatesOnlyAdvance(trace: seq<World>, change: Change, i: nat, j: nat, role: Role)
    requires Good(trace, change) && i <= j < |trace|
    ensures HasSelected(trace[i], change, role) ==> HasSelected(trace[j], change, role)
    ensures role in trace[i].sts && role in trace[j].sts
    ensures Certificate(trace[i].sts[role]) != Certificate(trace[j].sts[role]) ==>
              exists m :: i < m <= j && At(trace[m - 1], role, 0) && role !in trace[m - 1].pods
                          && HasSelected(trace[m], change, role)
    decreases j - i
  {
    hide Certificate, Bound, AssertSource, Change.Valid, TlsExpected, VolumesNamed;
    assert Inv(trace[i], change) && Fits(trace[i], change, role);
    FitsShape(trace[i], change, role);
    hide Fits, Inv;
    if i < j {
      CertificatesOnlyAdvance(trace, change, i, j - 1, role);
      assert Orderly(trace[j - 1], trace[j], change) && OrderlyAt(trace[j - 1], trace[j], change, role);
    }
  }
}
