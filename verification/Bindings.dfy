/** Pointing a stopped controller at another Secret, trust bundle, runtime configuration or
    identity: each step is refused on anything unexpected, changes one reference, can be taken
    again and can be taken back. */
module Bindings {
  import opened Options
  import opened Results
  import opened Workload

  // ---- The runtime Secret ------------------------------------------------------------------------

  const CREDENTIAL_KEYS := {"DATABASE_URL", "ARTIFACT_S3_ACCESS_KEY", "ARTIFACT_S3_SECRET_KEY"}

  function Upper(s: string): string {
    seq(|s|, i requires 0 <= i < |s| => if 'a' <= s[i] <= 'z' then s[i] - 'a' + 'A' else s[i])
  }

  predicate OneContainer(d: Controller) { |d.pod.containers| == 1 }

  function Changed(d: Controller, c: Container): Controller
    requires OneContainer(d)
  {
    d.(pod := d.pod.(containers := [c]))
  }

  function TheContainer(d: Controller): Container
    requires OneContainer(d)
  {
    d.pod.containers[0]
  }

  predicate Overridden(c: Container) {
    exists i :: 0 <= i < |c.env| && Upper(c.env[i].name) in CREDENTIAL_KEYS
  }

  predicate SecretExpected(d: Controller, names: set<string>) {
    && OneContainer(d)
    && |SecretRefs(TheContainer(d).envFrom)| == 1 && SecretRefs(TheContainer(d).envFrom)[0] in names
    && !Overridden(TheContainer(d))
  }

  function BindRuntimeSecret(d: Controller, previous: string, selected: string): Result<Controller> {
    if d.replicas == Some(0) && SecretExpected(d, {previous, selected}) then
      var c := TheContainer(d);
      Ok(Changed(d, c.(envFrom := WithSecret(c.envFrom, selected))).Clean())
    else Refused
  }

  /** Binding puts the selected Secret in the one place, may be repeated, and is undone exactly by
      binding back to what was there. */
  lemma RuntimeSecretBound(d: Controller, previous: string, selected: string)
    requires BindRuntimeSecret(d, previous, selected).Ok?
    ensures var r := BindRuntimeSecret(d, previous, selected).value;
      && SecretRefs(TheContainer(r).envFrom) == [selected]
      && BindRuntimeSecret(r, previous, selected) == Ok(r)
      && BindRuntimeSecret(r, selected, SecretRefs(TheContainer(d).envFrom)[0]) == Ok(d.Clean())
  {
    var c := TheContainer(d);
    var before := SecretRefs(c.envFrom)[0];
    var s := WithSecret(c.envFrom, selected);
    SecretRefsRenamed(c.envFrom, selected, selected);
    SecretRefsRenamed(c.envFrom, selected, before);
    SecretRefsRenamed(c.envFrom, before, before);
    assert SecretRefs(s)[0] in SecretRefs(s);
    assert WithSecret(c.envFrom, before) == c.envFrom;
    assert d.pod.containers == [c];
    hide SecretRefs, WithSecret, Overridden, CREDENTIAL_KEYS;
  }

  // ---- The trust bundle ------------------------------------------------------------------------------

  const TRUST := "runtime-trust"
  const BUNDLE := "ca-bundle.crt"

  function MountsNamed(s: seq<Mount>, name: string): seq<Mount> {
    if s == [] then []
    else (if s[0].name == name then [s[0]] else []) + MountsNamed(s[1..], name)
  }

  /** The one volume called `name` is a ConfigMap with a name among `names`. */
  predicate ConfigVolume(s: seq<Volume>, name: string, names: set<string>) {
    var v := VolumesNamed(s, name);
    |v| == 1 && v[0].source.ConfigMap? && v[0].source.name in names
  }

  predicate TrustMounted(c: Container) {
    var m := MountsNamed(c.mounts, TRUST);
    && |m| == 1 && m[0].readOnly && m[0].path == "/etc/okf/trust/ca-bundle.crt"
    && m[0].subPath == BUNDLE && m[0].subPathExpr == ""
  }

  predicate TrustExpected(d: Controller, names: set<string>) {
    && OneContainer(d) && ConfigVolume(d.pod.volumes, TRUST, names)
    && VolumesNamed(d.pod.volumes, TRUST)[0].source.items == [(BUNDLE, BUNDLE)]
    && TrustMounted(TheContainer(d))
  }

  function Pointing(d: Controller, name: string, target: string): Controller {
    d.(pod := d.pod.(volumes := Rebound(d.pod.volumes, name, target)))
  }

  function BindTrust(d: Controller, previous: string, selected: string): Result<Controller> {
    if d.replicas == Some(0) && TrustExpected(d, {previous, selected}) then
      Ok(Pointing(d, TRUST, selected).Clean())
    else Refused
  }

  /** The one volume called `name`, pointed elsewhere and back. */
  lemma PointedBack(s: seq<Volume>, name: string, a: string)
    requires |VolumesNamed(s, name)| == 1
    ensures var v := VolumesNamed(s, name)[0];
      && VolumesNamed(Rebound(s, name, a), name) == [v.(source := Pointed(v.source, a))]
      && Rebound(Rebound(s, name, a), name, a) == Rebound(s, name, a)
      && (!v.source.OtherSource? ==> Rebound(Rebound(s, name, a), name, v.source.name) == s)
  {
    var v := VolumesNamed(s, name)[0];
    assert VolumesNamed(s, name) == [v];
    VolumesNamedName(s, name);
    assert v in VolumesNamed(s, name);
    NamedRebound(s, name, a);
    ReboundTwice(s, name, a, a);
    OneVolume([v], name, a);
    if !v.source.OtherSource? {
      ReboundTwice(s, name, a, v.source.name);
      ReboundToSame(s, name, v.source.name);
    }
    hide Rebound, VolumesNamed;
  }

  lemma TrustBound(d: Controller, previous: string, selected: string)
    requires BindTrust(d, previous, selected).Ok?
    ensures var r := BindTrust(d, previous, selected).value;
      && VolumesNamed(r.pod.volumes, TRUST)[..] == [Volume(TRUST, ConfigMap(selected, [(BUNDLE, BUNDLE)]))]
      && BindTrust(r, previous, selected) == Ok(r)
      && BindTrust(r, selected, VolumesNamed(d.pod.volumes, TRUST)[0].source.name) == Ok(d.Clean())
  {
    PointedBack(d.pod.volumes, TRUST, selected);
    VolumesNamedName(d.pod.volumes, TRUST);
    assert VolumesNamed(d.pod.volumes, TRUST)[0] in VolumesNamed(d.pod.volumes, TRUST);
    hide Rebound, VolumesNamed, TrustMounted;
  }

  // ---- The image, runtime configuration and identity of a role ----------------------------------------

  const IDENTITY := "runtime-identity"

  predicate Application(d: Controller) { d.name == "api" || d.name == "worker" }

  /** What `StageRole` moves a role from or to. */
  datatype Release = Release(runtime: string, identity: string, image: string)

  predicate RoleExpected(d: Controller, was: Release, next: Release) {
    && OneContainer(d)
    && (|ConfigRefs(TheContainer(d).envFrom, {was.runtime, next.runtime})| == 1 || d.name == "frontend")
    && (Application(d) ==> ConfigVolume(d.pod.volumes, IDENTITY, {was.identity, next.identity}))
  }

  function Released(d: Controller, was: Release, next: Release): Controller
    requires OneContainer(d)
  {
    var c := TheContainer(d);
    var c' := c.(envFrom := WithConfig(c.envFrom, {was.runtime, next.runtime}, next.runtime));
    if Application(d) then Pointing(Changed(d, c'.(image := next.image)), IDENTITY, next.identity)
    else Changed(d, c')
  }

  function StageRole(d: Controller, was: Release, next: Release): Result<Controller> {
    if d.replicas == Some(0) && RoleExpected(d, was, next) then Ok(Released(d, was, next).Clean())
    else Refused
  }

  /** The role runs release `r`: configuration, identity and image together. */
  predicate Runs(d: Controller, r: Release, names: set<string>) {
    && OneContainer(d) && TheContainer(d).image == r.image
    && ConfigRefs(TheContainer(d).envFrom, names) == [r.runtime]
    && ConfigVolume(d.pod.volumes, IDENTITY, {r.identity})
  }

  /** A staged application role runs the new release whatever mixture it had before; staging may
      be repeated, and from a role that ran the old release it is undone exactly. */
  lemma RoleStaged(d: Controller, was: Release, next: Release)
    requires Application(d) && StageRole(d, was, next).Ok?
    ensures var r := StageRole(d, was, next).value;
      && Runs(r, next, {was.runtime, next.runtime})
      && StageRole(r, was, next) == Ok(r)
      && (Runs(d, was, {was.runtime, next.runtime}) ==> StageRole(r, next, was) == Ok(d.Clean()))
  {
    var names := {was.runtime, next.runtime};
    var c := TheContainer(d);
    ConfigRefsRenamed(c.envFrom, names, next.runtime, next.runtime);
    var s := WithConfig(c.envFrom, names, next.runtime);
    assert ConfigRefs(s, names)[0] in ConfigRefs(s, names);
    PointedBack(d.pod.volumes, IDENTITY, next.identity);
    assert d.pod.containers == [c];
    if Runs(d, was, names) { RoleStagedBack(d, was, next); }
    hide ConfigRefs, WithConfig, VolumesNamed, Rebound;
  }

  lemma RoleStagedBack(d: Controller, was: Release, next: Release)
    requires Application(d) && StageRole(d, was, next).Ok? && Runs(d, was, {was.runtime, next.runtime})
    ensures StageRole(StageRole(d, was, next).value, next, was) == Ok(d.Clean())
  {
    var names := {was.runtime, next.runtime};
    assert names == {next.runtime, was.runtime};
    var c := TheContainer(d);
    ConfigRefsRenamed(c.envFrom, names, next.runtime, was.runtime);
    ConfigRefsRenamed(c.envFrom, names, was.runtime, was.runtime);
    PointedBack(d.pod.volumes, IDENTITY, next.identity);
    assert d.pod.containers == [c];
    hide ConfigRefs, WithConfig, VolumesNamed, Rebound;
  }
}
