/** Kubernetes controllers as the maintenance coordinators see them, and the functions that point
    a stopped controller at other Secrets and ConfigMaps. */
module Workload {
  import opened Options

  datatype EnvFrom = ConfigMapRef(name: string) | SecretRef(name: string)

  datatype EnvVar = EnvVar(name: string, value: string)

  datatype Source = ConfigMap(name: string, items: seq<(string, string)>)
                  | Secret(name: string)
                  | OtherSource(text: string)

  datatype Volume = Volume(name: string, source: Source)

  datatype Mount = Mount(name: string, path: string, readOnly: bool, subPath: string, subPathExpr: string)

  datatype Container = Container(image: string, envFrom: seq<EnvFrom>, env: seq<EnvVar>,
                                 mounts: seq<Mount>, rest: string)

  datatype PodSpec = PodSpec(containers: seq<Container>, volumes: seq<Volume>, rest: string)

  /** `status` and `managed` are written by the server and dropped before a controller is sent
      back; every other field not named here is in a `rest`. */
  datatype Controller = Controller(name: string, uid: string, replicas: Option<nat>, pod: PodSpec,
                                   rest: string, status: Option<string>, managed: Option<string>)
  {
    function Clean(): Controller { this.(status := None, managed := None) }
    function At(n: nat): Controller { this.(replicas := Some(n)) }
    predicate SameSpec(other: Controller) {
      replicas == other.replicas && pod == other.pod && rest == other.rest
    }
  }

  // ---- References in a list of environment sources ----------------------------------------------

  function SecretRefs(s: seq<EnvFrom>): seq<string> {
    if s == [] then []
    else (if s[0].SecretRef? then [s[0].name] else []) + SecretRefs(s[1..])
  }

  function WithSecret(s: seq<EnvFrom>, name: string): seq<EnvFrom> {
    if s == [] then []
    else [if s[0].SecretRef? then SecretRef(name) else s[0]] + WithSecret(s[1..], name)
  }

  function ConfigRefs(s: seq<EnvFrom>, names: set<string>): seq<string> {
    if s == [] then []
    else (if s[0].ConfigMapRef? && s[0].name in names then [s[0].name] else [])
         + ConfigRefs(s[1..], names)
  }

  function WithConfig(s: seq<EnvFrom>, names: set<string>, name: string): seq<EnvFrom> {
    if s == [] then []
    else [if s[0].ConfigMapRef? && s[0].name in names then ConfigMapRef(name) else s[0]]
         + WithConfig(s[1..], names, name)
  }

  function Repeat(n: nat, name: string): seq<string> { seq(n, _ => name) }

  lemma {:induction false} SecretRefsRenamed(s: seq<EnvFrom>, a: string, b: string)
    ensures |SecretRefs(WithSecret(s, a))| == |SecretRefs(s)|
    ensures forall r :: r in SecretRefs(WithSecret(s, a)) ==> r == a
    ensures WithSecret(WithSecret(s, a), b) == WithSecret(s, b)
    ensures (forall r :: r in SecretRefs(s) ==> r == b) ==> WithSecret(s, b) == s
    ensures forall names :: ConfigRefs(WithSecret(s, a), names) == ConfigRefs(s, names)
  {
    if s != [] {
      SecretRefsRenamed(s[1..], a, b);
      assert WithSecret(s, a)[1..] == WithSecret(s[1..], a);
      if forall r :: r in SecretRefs(s) ==> r == b {
        assert forall r :: r in SecretRefs(s[1..]) ==> r in SecretRefs(s);
        assert s[0].SecretRef? ==> s[0].name in SecretRefs(s);
      }
    }
  }

  lemma {:induction false} ConfigRefsRenamed(s: seq<EnvFrom>, names: set<string>, a: string, b: string)
    requires a in names
    ensures |ConfigRefs(WithConfig(s, names, a), names)| == |ConfigRefs(s, names)|
    ensures forall r :: r in ConfigRefs(WithConfig(s, names, a), names) ==> r == a
    ensures WithConfig(WithConfig(s, names, a), names, b) == WithConfig(s, names, b)
    ensures (forall r :: r in ConfigRefs(s, names) ==> r == b) ==> WithConfig(s, names, b) == s
    ensures SecretRefs(WithConfig(s, names, a)) == SecretRefs(s)
    ensures WithConfig(WithSecret(s, b), names, a) == WithSecret(WithConfig(s, names, a), b)
  {
    if s != [] {
      ConfigRefsRenamed(s[1..], names, a, b);
      assert WithConfig(s, names, a)[1..] == WithConfig(s[1..], names, a);
      assert WithSecret(s, b)[1..] == WithSecret(s[1..], b);
      if forall r :: r in ConfigRefs(s, names) ==> r == b {
        assert forall r :: r in ConfigRefs(s[1..], names) ==> r in ConfigRefs(s, names);
        assert s[0].ConfigMapRef? && s[0].name in names ==> s[0].name in ConfigRefs(s, names);
      }
    }
  }

  // ---- Volumes --------------------------------------------------------------------------------------

  function Pointed(source: Source, target: string): Source {
    if source.OtherSource? then source else source.(name := target)
  }

  function VolumesNamed(s: seq<Volume>, name: string): seq<Volume> {
    if s == [] then []
    else (if s[0].name == name then [s[0]] else []) + VolumesNamed(s[1..], name)
  }

  function Rebound(s: seq<Volume>, name: string, target: string): seq<Volume> {
    if s == [] then []
    else [if s[0].name == name then s[0].(source := Pointed(s[0].source, target)) else s[0]]
         + Rebound(s[1..], name, target)
  }

  lemma {:induction false} NamedRebound(s: seq<Volume>, name: string, a: string)
    ensures VolumesNamed(Rebound(s, name, a), name) == Rebound(VolumesNamed(s, name), name, a)
  {
    if s != [] {
      NamedRebound(s[1..], name, a);
      var r := Rebound(s, name, a);
      var v := VolumesNamed(s, name);
      assert r[1..] == Rebound(s[1..], name, a);
      if s[0].name == name {
        assert VolumesNamed(r, name) == [r[0]] + VolumesNamed(r[1..], name);
        assert v[0] == s[0] && v[1..] == VolumesNamed(s[1..], name);
        assert Rebound(v, name, a) == [r[0]] + Rebound(v[1..], name, a);
      } else {
        assert r[0] == s[0];
        assert VolumesNamed(r, name) == [] + VolumesNamed(r[1..], name) == VolumesNamed(r[1..], name);
        assert v == [] + VolumesNamed(s[1..], name) == VolumesNamed(s[1..], name);
      }
    }
  }

  lemma {:induction false} OtherRebound(s: seq<Volume>, name: string, other: string, a: string, b: string)
    requires other != name
    ensures VolumesNamed(Rebound(s, name, a), other) == VolumesNamed(s, other)
    ensures Rebound(Rebound(s, name, a), other, b) == Rebound(Rebound(s, other, b), name, a)
  {
    if s != [] {
      OtherRebound(s[1..], name, other, a, b);
      assert Rebound(s, name, a)[1..] == Rebound(s[1..], name, a);
      assert Rebound(s, other, b)[1..] == Rebound(s[1..], other, b);
    }
  }

  lemma {:induction false} ReboundTwice(s: seq<Volume>, name: string, a: string, b: string)
    ensures Rebound(Rebound(s, name, a), name, b) == Rebound(s, name, b)
  {
    if s != [] {
      ReboundTwice(s[1..], name, a, b);
      assert Rebound(s, name, a)[1..] == Rebound(s[1..], name, a);
    }
  }

  lemma {:induction false} ReboundToSame(s: seq<Volume>, name: string, a: string)
    requires forall v :: v in VolumesNamed(s, name) ==> Pointed(v.source, a) == v.source
    ensures Rebound(s, name, a) == s
  {
    if s != [] {
      var tail := VolumesNamed(s[1..], name);
      assert VolumesNamed(s, name) == (if s[0].name == name then [s[0]] else []) + tail;
      forall v | v in tail ensures Pointed(v.source, a) == v.source {
        assert v in VolumesNamed(s, name);
      }
      ReboundToSame(s[1..], name, a);
      assert s[0].name == name ==> s[0] in VolumesNamed(s, name);
      hide VolumesNamed;
      assert Rebound(s, name, a) == [s[0]] + s[1..];
    }
  }

  lemma OneVolume(s: seq<Volume>, name: string, a: string)
    requires |s| == 1 && s[0].name == name
    ensures Rebound(s, name, a) == [s[0].(source := Pointed(s[0].source, a))]
  {}

  lemma {:induction false} VolumesNamedName(s: seq<Volume>, name: string)
    ensures forall v :: v in VolumesNamed(s, name) ==> v.name == name
  {
    if s != [] { VolumesNamedName(s[1..], name); }
  }
}
