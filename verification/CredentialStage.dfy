/** The templates the credential transition gives the stopped api and worker roles. */
module CredentialStage {
  import opened Options
  import opened Results
  import opened Workload
  import opened Bindings
  import opened ImageStaging

  datatype Trust = Trust(previous: string, selected: string)

  /** The references before and after: the runtime configuration keeps its name. */
  datatype Switch = Switch(runtime: string, oldIdentity: string, newIdentity: string,
                           oldSecret: string, newSecret: string, trust: Option<Trust>, operator: string)

  function BindMaybeTrust(d: Controller, trust: Option<Trust>): Result<Controller> {
    if trust.None? then Ok(d) else BindTrust(d, trust.value.previous, trust.value.selected)
  }

  function Was(s: Switch, image: string): Release { Release(s.runtime, s.oldIdentity, image) }
  function Next(s: Switch, image: string): Release { Release(s.runtime, s.newIdentity, image) }

  /** `current` with the new identity, the new runtime Secret and the new trust bundle, on the image
      of `original`. */
  function StageCredential(current: Controller, original: Controller, s: Switch): Result<Controller> {
    if current.uid != original.uid || !OneContainer(original) then Refused
    else
      var image := TheContainer(original).image;
      var role := StageRole(current, Was(s, image), Next(s, image));
      if role.Refused? then Refused
      else
        var bound := BindRuntimeSecret(role.value, s.oldSecret, s.newSecret);
        if bound.Refused? then Refused
        else
          var trusted := BindMaybeTrust(bound.value, s.trust);
          if trusted.Refused? || Mentions(trusted.value.pod, s.operator) then Refused else trusted
  }

  /** Binding the Secret and staging the role touch different references. */
  lemma StageAfterSecret(d: Controller, was: Release, next: Release, previous: string, selected: string)
    requires Application(d) && StageRole(d, was, next) == Ok(d)
    requires BindRuntimeSecret(d, previous, selected).Ok?
    ensures var r := BindRuntimeSecret(d, previous, selected).value;
      StageRole(r, was, next) == Ok(r) && Application(r)
  {
    var names := {was.runtime, next.runtime};
    var c := TheContainer(d);
    ConfigRefsRenamed(c.envFrom, names, next.runtime, selected);
    SecretRefsRenamed(c.envFrom, selected, selected);
    assert d.pod.containers == [c];
    hide ConfigRefs, WithConfig, SecretRefs, WithSecret, VolumesNamed, Rebound, Overridden;
  }

  lemma StageAfterTrust(d: Controller, was: Release, next: Release, previous: string, selected: string)
    requires Application(d) && StageRole(d, was, next) == Ok(d)
    requires BindTrust(d, previous, selected).Ok?
    ensures var r := BindTrust(d, previous, selected).value;
      StageRole(r, was, next) == Ok(r)
  {
    OtherRebound(d.pod.volumes, TRUST, IDENTITY, selected, next.identity);
    OtherRebound(d.pod.volumes, IDENTITY, TRUST, next.identity, selected);
    assert d.pod.containers == [TheContainer(d)];
    hide ConfigRefs, WithConfig, VolumesNamed, Rebound, MountsNamed;
  }

  lemma SecretAfterTrust(d: Controller, previous: string, selected: string, trust: Trust)
    requires BindRuntimeSecret(d, previous, selected) == Ok(d)
    requires BindTrust(d, trust.previous, trust.selected).Ok?
    ensures var r := BindTrust(d, trust.previous, trust.selected).value;
      BindRuntimeSecret(r, previous, selected) == Ok(r)
  {
    hide SecretRefs, WithSecret, VolumesNamed, Rebound, MountsNamed, Overridden;
    assert d.pod.containers == [TheContainer(d)];
  }

  /** Staging again gives the same template, so a run that stopped between the two roles, or after
      both, is finished by staging both. */
  lemma CredentialRestaged(current: Controller, original: Controller, s: Switch)
    requires Application(current) && StageCredential(current, original, s).Ok?
    ensures var r := StageCredential(current, original, s).value;
      && StageCredential(r, original, s) == Ok(r)
      && r.uid == original.uid && r.replicas == Some(0) && Application(r)
      && OneContainer(r) && SecretRefs(TheContainer(r).envFrom) == [s.newSecret]
  {
    var image := TheContainer(original).image;
    var was, next := Was(s, image), Next(s, image);
    RoleStaged(current, was, next);
    var role := StageRole(current, was, next).value;
    RuntimeSecretBound(role, s.oldSecret, s.newSecret);
    StageAfterSecret(role, was, next, s.oldSecret, s.newSecret);
    var bound := BindRuntimeSecret(role, s.oldSecret, s.newSecret).value;
    BoundFrame(current, was, next, s.oldSecret, s.newSecret);
    if s.trust.Some? {
      var t := s.trust.value;
      TrustBound(bound, t.previous, t.selected);
      StageAfterTrust(bound, was, next, t.previous, t.selected);
      SecretAfterTrust(bound, s.oldSecret, s.newSecret, t);
    }
    hide StageRole, BindRuntimeSecret, BindTrust, Mentions, SecretRefs;
    TrustFrame(bound, s.trust);
  }

  lemma BoundFrame(d: Controller, was: Release, next: Release, previous: string, selected: string)
    requires StageRole(d, was, next).Ok?
    requires BindRuntimeSecret(StageRole(d, was, next).value, previous, selected).Ok?
    ensures var r := BindRuntimeSecret(StageRole(d, was, next).value, previous, selected).value;
      r.uid == d.uid && r.replicas == Some(0) && r.name == d.name && OneContainer(r)
  {
    hide SecretRefs, WithSecret, ConfigRefs, WithConfig, VolumesNamed, Rebound;
  }

  lemma TrustFrame(d: Controller, trust: Option<Trust>)
    requires BindMaybeTrust(d, trust).Ok? && d.replicas == Some(0) && OneContainer(d)
    ensures var r := BindMaybeTrust(d, trust).value;
      && r.uid == d.uid && r.replicas == d.replicas && r.name == d.name
      && r.pod.containers == d.pod.containers
  {
    hide VolumesNamed, Rebound;
  }
}
