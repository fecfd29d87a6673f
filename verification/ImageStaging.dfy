/** Staging a new image on the api and worker roles, resumable from any partial staging. */
module ImageStaging {
  import opened Options
  import opened Results
  import opened Workload
  import opened Bindings

  // ---- A scoped runtime Secret ---------------------------------------------------------------------

  predicate Within(s: string, t: string) {
    exists i :: 0 <= i <= |t| && s <= t[i..]
  }

  function SourceTexts(source: Source): seq<string> {
    match source
    case ConfigMap(name, items) => [name] + ItemTexts(items)
    case Secret(name) => [name]
    case OtherSource(text) => [text]
  }

  function ItemTexts(items: seq<(string, string)>): seq<string> {
    if items == [] then [] else [items[0].0, items[0].1] + ItemTexts(items[1..])
  }

  predicate ContainerMentions(c: Container, s: string) {
    || Within(s, c.image) || Within(s, c.rest)
    || (exists i :: 0 <= i < |c.envFrom| && Within(s, c.envFrom[i].name))
    || (exists i :: 0 <= i < |c.env| && (Within(s, c.env[i].name) || Within(s, c.env[i].value)))
    || (exists i :: 0 <= i < |c.mounts| &&
          (Within(s, c.mounts[i].name) || Within(s, c.mounts[i].path)
           || Within(s, c.mounts[i].subPath) || Within(s, c.mounts[i].subPathExpr)))
  }

  predicate Mentions(p: PodSpec, s: string) {
    || Within(s, p.rest)
    || (exists i :: 0 <= i < |p.containers| && ContainerMentions(p.containers[i], s))
    || (exists i :: 0 <= i < |p.volumes| &&
          (Within(s, p.volumes[i].name)
           || exists t :: t in SourceTexts(p.volumes[i].source) && Within(s, t)))
  }

  predicate ScopedSecret(api: Controller, runtime: string, operator: string) {
    && OneContainer(api) && runtime != operator
    && SecretRefs(TheContainer(api).envFrom) == [runtime]
    && !Mentions(api.pod, operator)
    && BindRuntimeSecret(api.At(0), runtime, runtime).Ok?
  }

  // ---- One role --------------------------------------------------------------------------------------

  function AllConfigRefs(s: seq<EnvFrom>): seq<string> {
    if s == [] then []
    else (if s[0].ConfigMapRef? then [s[0].name] else []) + AllConfigRefs(s[1..])
  }

  lemma {:induction false} OnlyConfigRef(s: seq<EnvFrom>, names: set<string>)
    requires forall r :: r in AllConfigRefs(s) ==> r in names
    ensures ConfigRefs(s, names) == AllConfigRefs(s)
  {
    if s != [] {
      assert forall r :: r in AllConfigRefs(s[1..]) ==> r in AllConfigRefs(s);
      assert s[0].ConfigMapRef? ==> s[0].name in AllConfigRefs(s);
      OnlyConfigRef(s[1..], names);
    }
  }

  /** The release a role runs, when it is bound to one configuration and one identity. */
  function ReleaseOf(d: Controller): Option<Release> {
    if !OneContainer(d) then None
    else
      var c := TheContainer(d);
      var runtimes := AllConfigRefs(c.envFrom);
      var identities := VolumesNamed(d.pod.volumes, IDENTITY);
      if |runtimes| == 1 && |identities| == 1 && identities[0].source.ConfigMap? then
        Some(Release(runtimes[0], identities[0].source.name, c.image))
      else None
  }

  /** The role of `baseline`, stopped and moved to release `next`. */
  function Selected(baseline: Controller, next: Release): Result<Controller> {
    if ReleaseOf(baseline).None? then Refused
    else StageRole(baseline.At(0), ReleaseOf(baseline).value, next)
  }

  /** What `stage_image_role` is told: the new release and the two Secrets. */
  datatype Plan = Plan(next: Release, secret: string, operator: string)

  function StageImageRole(value: Controller, baseline: Controller, plan: Plan): Result<Controller> {
    if !ScopedSecret(baseline, plan.secret, plan.operator) || Selected(baseline, plan.next).Refused? then Refused
    else
      var selected := Selected(baseline, plan.next).value;
      if value.uid == baseline.uid
         && (value.SameSpec(baseline.At(0)) || value.SameSpec(selected)) then
        Ok(value.(replicas := selected.replicas, pod := selected.pod, rest := selected.rest).Clean())
      else Refused
  }

  /** From the stopped source template or the staged one, the result is the staged template: the
      new image, configuration and identity together, and nothing else new, for putting the old
      release back gives the stopped source again. */
  lemma ImageRoleStaged(value: Controller, baseline: Controller, plan: Plan)
    requires Application(baseline) && StageImageRole(value, baseline, plan).Ok?
    ensures var r := StageImageRole(value, baseline, plan).value;
      && r.SameSpec(Selected(baseline, plan.next).value)
      && r.uid == baseline.uid && r.replicas == Some(0)
      && ReleaseOf(r) == Some(plan.next)
      && StageImageRole(r, baseline, plan) == Ok(r)
      && SecretRefs(TheContainer(r).envFrom) == [plan.secret]
      && StageRole(Selected(baseline, plan.next).value, plan.next, ReleaseOf(baseline).value)
           == Ok(baseline.At(0).Clean())
  {
    var was := ReleaseOf(baseline).value;
    var stopped := baseline.At(0);
    var names := {was.runtime, plan.next.runtime};
    var c := TheContainer(baseline);
    assert forall r :: r in AllConfigRefs(c.envFrom) ==> r == was.runtime;
    OnlyConfigRef(c.envFrom, names);
    VolumesNamedName(baseline.pod.volumes, IDENTITY);
    assert Bindings.Runs(stopped, was, names);
    RoleStaged(stopped, was, plan.next);
    ConfigRefsRenamed(c.envFrom, names, plan.next.runtime, plan.next.runtime);
    AllRenamed(c.envFrom, names, plan.next.runtime);
    hide ScopedSecret, StageRole, ConfigRefs, WithConfig, VolumesNamed, Rebound, AllConfigRefs, SecretRefs;
    StagedShape(stopped, was, plan.next);
  }

  lemma {:induction false} AllRenamed(s: seq<EnvFrom>, names: set<string>, a: string)
    requires AllAmong(s, names)
    ensures AllConfigRefs(WithConfig(s, names, a)) == Repeat(|AllConfigRefs(s)|, a)
  {
    if s != [] {
      AmongFront(s, names);
      AllRenamed(s[1..], names, a);
      hide AllAmong;
      assert WithConfig(s, names, a)[1..] == WithConfig(s[1..], names, a);
    }
  }

  predicate AllAmong(s: seq<EnvFrom>, names: set<string>) { forall r :: r in AllConfigRefs(s) ==> r in names }

  lemma AmongFront(s: seq<EnvFrom>, names: set<string>)
    requires s != [] && AllAmong(s, names)
    ensures AllAmong(s[1..], names) && (s[0].ConfigMapRef? ==> s[0].name in names)
  {
    assert forall r :: r in AllConfigRefs(s[1..]) ==> r in AllConfigRefs(s);
    assert s[0].ConfigMapRef? ==> s[0].name in AllConfigRefs(s);
  }

  lemma StagedShape(d: Controller, was: Release, next: Release)
    requires Application(d) && StageRole(d, was, next).Ok?
    ensures var r := StageRole(d, was, next).value;
      && OneContainer(r) && TheContainer(r).image == next.image && r.uid == d.uid && r.replicas == Some(0)
      && TheContainer(r).envFrom
           == WithConfig(TheContainer(d).envFrom, {was.runtime, next.runtime}, next.runtime)
  {}

  // ---- All roles ---------------------------------------------------------------------------------------

  function Count(role: string): nat { if role == "model-stub" then 1 else 2 }

  predicate CheckRole(role: string, current: Controller, baseline: Controller, plan: Plan,
                      staged: bool, running: bool) {
    && (current.replicas == Some(0) || (running && current.replicas == Some(Count(role))))
    && var stopped := current.At(0);
       if role == "api" || role == "worker" then
         && StageImageRole(stopped, baseline, plan).Ok?
         && (staged ==> stopped.SameSpec(StageImageRole(stopped, baseline, plan).value))
       else current.uid == baseline.uid && stopped.SameSpec(baseline.At(0))
  }

  predicate CheckRoles(objects: map<string, Controller>, baselines: map<string, Controller>, plan: Plan,
                       staged: bool, running: bool) {
    forall role :: role in baselines ==>
      role in objects && CheckRole(role, objects[role], baselines[role], plan, staged, running)
  }

  /** Controllers are kept under their names, and the application roles are among them. */
  predicate Baselines(m: map<string, Controller>) {
    "api" in m && "worker" in m && forall r :: r in m ==> m[r].name == r
  }

  /** The upgrade as its journal and the cluster hold it. */
  class ImageUpgrade {
    const baselines: map<string, Controller>
    const plan: Plan
    var objects: map<string, Controller>
    var staged: bool     // the durable phase is `staged`

    constructor (baselines: map<string, Controller>, plan: Plan, objects: map<string, Controller>)
      ensures this.baselines == baselines && this.plan == plan && this.objects == objects && !staged
    {
      this.baselines, this.plan, this.objects, this.staged := baselines, plan, objects, false;
    }

    predicate Held() reads this { CheckRoles(objects, baselines, plan, false, false) }

    /** One run of `stage`, whose process ends before effect number `crash`. Unless the roles are a
        mixture of stopped source and staged ones nothing happens. However the run ends, they
        are such a mixture still; when it completes, every role is staged and none of the rest
        of the cluster has changed. */
    method Stage(crash: nat) returns (completed: bool)
      requires Baselines(baselines)
      modifies this
      ensures Held() == old(Held()) && objects.Keys == old(objects.Keys)
      ensures !old(Held()) ==> objects == old(objects) && staged == old(staged)
      ensures forall r :: r in objects && r != "api" && r != "worker" ==> objects[r] == old(objects[r])
      ensures forall r :: (r == "api" || r == "worker") && r in objects ==>
                objects[r] == old(objects[r])
                || Ok(objects[r]) == StageImageRole(old(objects[r]), baselines[r], plan)
      ensures completed == (old(Held()) && crash >= 3)
      ensures completed ==> staged && CheckRoles(objects, baselines, plan, true, false)
      ensures !completed ==> staged == old(staged)
      ensures completed ==> forall r :: (r == "api" || r == "worker") && r in objects ==>
                ReleaseOf(objects[r]) == Some(plan.next)
    {
      hide StageImageRole, CheckRole, ReleaseOf;
      if !CheckRoles(objects, baselines, plan, false, false) { return false; }
      var roles := ["api", "worker"];
      var i := 0;
      ghost var before := objects;
      while i < |roles|
        invariant 0 <= i <= |roles| && i <= crash && staged == old(staged)
        invariant objects.Keys == before.Keys
        invariant forall r :: r in before && r !in roles[..i] ==> objects[r] == before[r]
        invariant forall r :: r in roles[..i] ==>
                    r in before && Ok(objects[r]) == StageImageRole(before[r], baselines[r], plan)
      {
        var role := roles[i];
        assert CheckRole(role, before[role], baselines[role], plan, false, false);
        StageKeepsRole(role, before[role], baselines[role], plan);
        var selected := StageImageRole(objects[role], baselines[role], plan);
        if i == crash {
          StageKeepsHeld(before, objects, baselines, plan, roles[..i]);
          return false;
        }
        objects := objects[role := selected.value];
        i := i + 1;
      }
      StageKeepsHeld(before, objects, baselines, plan, roles[..i]);
      if crash == 2 { return false; }
      assert roles[..i] == roles && roles[0] == "api" && roles[1] == "worker";
      assert "api" in roles && "worker" in roles;
      staged := true;
      AllStaged(before, objects, baselines, plan);
      return true;
    }
  }

  lemma StoppedIsItself(d: Controller)
    ensures d.replicas == Some(0) ==> d.At(0) == d
  {}

  lemma StageKeepsRole(role: string, before: Controller, baseline: Controller, plan: Plan)
    requires CheckRole(role, before, baseline, plan, false, false) && Application(baseline)
    requires role == "api" || role == "worker"
    ensures var r := StageImageRole(before, baseline, plan);
      r.Ok? && CheckRole(role, r.value, baseline, plan, true, false)
      && ReleaseOf(r.value) == Some(plan.next)
  {
    StoppedIsItself(before);
    ImageRoleStaged(before, baseline, plan);
    StoppedIsItself(StageImageRole(before, baseline, plan).value);
    hide StageImageRole, Selected, ReleaseOf, StageRole, SecretRefs;
  }

  lemma StageKeepsHeld(before: map<string, Controller>, after: map<string, Controller>,
                       baselines: map<string, Controller>, plan: Plan, changed: seq<string>)
    requires CheckRoles(before, baselines, plan, false, false) && Baselines(baselines)
    requires after.Keys == before.Keys
    requires forall r :: r in changed ==> r == "api" || r == "worker"
    requires forall r :: r in before && r !in changed ==> after[r] == before[r]
    requires forall r :: r in changed ==>
               r in before && Ok(after[r]) == StageImageRole(before[r], baselines[r], plan)
    ensures CheckRoles(after, baselines, plan, false, false)
  {
    forall role | role in baselines
      ensures role in after && CheckRole(role, after[role], baselines[role], plan, false, false)
    {
      assert role in before && CheckRole(role, before[role], baselines[role], plan, false, false);
      if role in changed { StageKeepsRole(role, before[role], baselines[role], plan); }
    }
  }

  lemma AllStaged(before: map<string, Controller>, after: map<string, Controller>,
                  baselines: map<string, Controller>, plan: Plan)
    requires CheckRoles(before, baselines, plan, false, false) && Baselines(baselines)
    requires after.Keys == before.Keys
    requires forall r :: r in before && r != "api" && r != "worker" ==> after[r] == before[r]
    requires forall r :: r == "api" || r == "worker" ==>
               r in before && Ok(after[r]) == StageImageRole(before[r], baselines[r], plan)
    ensures CheckRoles(after, baselines, plan, true, false)
    ensures forall r :: r == "api" || r == "worker" ==> ReleaseOf(after[r]) == Some(plan.next)
  {
    forall role | role in baselines
      ensures role in after && CheckRole(role, after[role], baselines[role], plan, true, false)
      ensures role == "api" || role == "worker" ==> ReleaseOf(after[role]) == Some(plan.next)
    {
      assert role in before && CheckRole(role, before[role], baselines[role], plan, false, false);
      if role == "api" || role == "worker" { StageKeepsRole(role, before[role], baselines[role], plan); }
    }
  }
}
