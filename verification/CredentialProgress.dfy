/** A held credential transition can always be finished: from wherever a crash left it, as long as no
    offline Job has failed, giving the commands again leads to the release. */
module CredentialProgress {
  import opened Options
  import opened Credentials
  import opened CredentialSafety
  import opened Workload
  import CredentialStage

  /** Some run leads from one state to the other. */
  ghost predicate Leads(plan: Plan, a: State, b: State) { exists steps :: Runs(plan, a, steps, b) }

  lemma LeadsNowhere(plan: Plan, a: State)
    ensures Leads(plan, a, a)
  {
    assert Runs(plan, a, [], a);
  }

  lemma {:induction false} RunsJoin(plan: Plan, a: State, s: seq<Step>, b: State, t: seq<Step>, c: State)
    requires Runs(plan, a, s, b) && Runs(plan, b, t, c)
    ensures Runs(plan, a, s + t, c)
    decreases |s|
  {
    hide Enabled, Next;
    if s == [] {
      assert s + t == t;
    } else {
      assert (s + t)[0] == s[0] && (s + t)[1..] == s[1..] + t;
      RunsJoin(plan, Next(plan, a, s[0]), s[1..], b, t, c);
    }
  }

  lemma LeadsOn(plan: Plan, a: State, b: State, c: State)
    requires Leads(plan, a, b) && Leads(plan, b, c)
    ensures Leads(plan, a, c)
  {
    hide Runs;
    var s :| Runs(plan, a, s, b);
    var t :| Runs(plan, b, t, c);
    RunsJoin(plan, a, s, b, t, c);
  }

  lemma LeadsStep(plan: Plan, a: State, step: Step)
    requires Enabled(plan, a, step)
    ensures Leads(plan, a, Next(plan, a, step))
  {
    hide Enabled, Next;
    var b := Next(plan, a, step);
    assert [step][1..] == [];
    assert Runs(plan, b, [], b);
    assert Runs(plan, a, [step], b);
  }

  /** A state that a run leads to from `a`, with the invariant. */
  ghost predicate At(plan: Plan, a: State, st: State) { Inv(plan, st) && Leads(plan, a, st) }

  lemma Takes(plan: Plan, a: State, st: State, step: Step)
    requires plan.Valid() && At(plan, a, st) && Enabled(plan, st, step)
    ensures At(plan, a, Next(plan, st, step))
  {
    hide Inv, Leads, Enabled, Next;
    LeadsStep(plan, st, step);
    LeadsOn(plan, a, st, Next(plan, st, step));
    StepInv(plan, st, step);
  }

  predicate Failing(job: Job) { job.Job? && job.status.Failed? }

  // ---- Held to computed ------------------------------------------------------------------------------

  lemma ComputeSubmits(plan: Plan, a: State, st: State) returns (next: State)
    requires plan.Valid() && At(plan, a, st) && st.proc.None? && st.journal.phase in {Held, Computed}
    requires !Failing(st.compute)
    ensures At(plan, a, next) && next.journal == st.journal
    ensures next.proc == Some(Proc(AwaitCompute, st.journal)) && next.compute.Job? && !Failing(next.compute)
  {
    hide Leads, Settled, OnTarget, PodFits;
    Takes(plan, a, st, Begin(Compute));
    var begun := Next(plan, st, Begin(Compute));
    Takes(plan, a, begun, Do(Completes));
    next := Next(plan, begun, Do(Completes));
  }

  lemma ComputeRuns(plan: Plan, a: State, st: State) returns (next: State)
    requires plan.Valid() && At(plan, a, st) && st.journal.phase in {Held, Computed}
    requires st.proc.Some? && st.compute.Job? && !Failing(st.compute)
    ensures At(plan, a, next) && next.journal == st.journal && next.proc == st.proc && next.compute.Successful()
  {
    hide Leads, Settled, OnTarget, PodFits;
    next := st;
    if next.compute.status.Active? && !next.compute.Committed() {
      Takes(plan, a, next, ComputeCommits);
      next := Next(plan, next, ComputeCommits);
    }
    if next.compute.status.Active? {
      Takes(plan, a, next, ComputeEnds(true));
      next := Next(plan, next, ComputeEnds(true));
    }
  }

  lemma ComputeReads(plan: Plan, a: State, st: State) returns (next: State)
    requires plan.Valid() && At(plan, a, st) && st.journal.phase in {Held, Computed}
    requires st.proc == Some(Proc(AwaitCompute, st.journal)) && st.compute.Successful()
    ensures At(plan, a, next) && next.journal == st.journal && next.compute == st.compute
    ensures next.proc == Some(Proc(SaveComputed, st.journal.(identity := Some(plan.newIdentity))))
  {
    hide Leads, Inv;
    Takes(plan, a, st, Do(Completes));
    next := Next(plan, st, Do(Completes));
  }

  lemma ComputeSaves(plan: Plan, a: State, st: State) returns (next: State)
    requires plan.Valid() && At(plan, a, st) && st.proc.Some? && st.proc.value.call.SaveComputed?
    ensures At(plan, a, next) && next.journal.phase.Computed? && next.proc.None?
  {
    hide Leads, Inv;
    Takes(plan, a, st, Do(Completes));
    next := Next(plan, st, Do(Completes));
  }

  // ---- Computed to staged ------------------------------------------------------------------------------

  /** A role that is the stopped original or staged already can be staged, if the original can. */
  lemma CanStage(plan: Plan, c: Controller, r: Role)
    requires plan.Valid() && (r == Api || r == Worker) && plan.Target(r).Ok?
    requires c.replicas == Some(0) && (Settled(plan, c, r) || OnTarget(plan, c, r))
    ensures CredentialStage.StageCredential(c, plan.original.Get(r), plan.switch).Ok?
  {
    assert c.At(0) == c;
    CredentialStage.CredentialRestaged(plan.Stopped(r), plan.original.Get(r), plan.switch);
    hide CredentialStage.StageCredential;
  }

  lemma StageBegins(plan: Plan, a: State, st: State) returns (next: State)
    requires plan.Valid() && At(plan, a, st) && st.proc.None?
    requires st.journal.phase.Computed? || (st.journal.phase.Staged? && st.release.Finished())
    ensures At(plan, a, next) && next.journal == st.journal && next.proc == Some(Proc(Stage(Api), st.journal))
    ensures next.release == st.release
  {
    hide Leads, Settled, OnTarget, PodFits;
    Takes(plan, a, st, Begin(StageRoles));
    var begun := Next(plan, st, Begin(StageRoles));
    Takes(plan, a, begun, Do(Completes));
    next := Next(plan, begun, Do(Completes));
  }

  lemma StageDoes(plan: Plan, a: State, st: State, r: Role) returns (next: State)
    requires plan.Valid() && At(plan, a, st) && st.journal.phase in {Computed, Staged} && (r == Api || r == Worker)
    requires st.proc == Some(Proc(Stage(r), st.journal)) && plan.Target(r).Ok?
    ensures At(plan, a, next) && next.journal == st.journal && next.release == st.release
    ensures next.proc == Some(Proc(if r == Api then Stage(Worker) else SaveStaged, st.journal))
  {
    hide Leads, PodFits, CredentialStage.StageCredential;
    StageReady(plan, st);
    CanStage(plan, st.roles.Get(r), r);
    hide Settled, OnTarget, Inv;
    Takes(plan, a, st, Do(Completes));
    next := Next(plan, st, Do(Completes));
  }

  lemma StageSaves(plan: Plan, a: State, st: State) returns (next: State)
    requires plan.Valid() && At(plan, a, st) && st.proc == Some(Proc(SaveStaged, st.journal))
    ensures At(plan, a, next) && next.journal.phase.Staged? && next.proc.None? && next.release == st.release
  {
    hide Leads, Inv;
    Takes(plan, a, st, Do(Completes));
    next := Next(plan, st, Do(Completes));
  }

  // ---- Staged to released ------------------------------------------------------------------------------

  lemma ReleaseSubmits(plan: Plan, a: State, st: State) returns (next: State)
    requires plan.Valid() && At(plan, a, st) && st.proc.None? && st.journal.phase.Staged? && !Failing(st.release)
    ensures At(plan, a, next) && next.journal == st.journal
    ensures next.proc == Some(Proc(AwaitRelease, st.journal)) && next.release.Job? && !Failing(next.release)
  {
    hide Leads, Settled, OnTarget, PodFits;
    Takes(plan, a, st, Begin(Release));
    var begun := Next(plan, st, Begin(Release));
    Takes(plan, a, begun, Do(Completes));
    next := Next(plan, begun, Do(Completes));
  }

  lemma ReleaseRuns(plan: Plan, a: State, st: State) returns (next: State)
    requires plan.Valid() && At(plan, a, st) && st.journal.phase.Staged?
    requires st.proc.Some? && st.release.Job? && !Failing(st.release)
    ensures At(plan, a, next) && next.journal == st.journal && next.proc == st.proc && next.release.Successful()
  {
    hide Leads, Settled, OnTarget, PodFits;
    next := st;
    if next.release.status.Active? && !next.release.Committed() {
      ReleaseFindsHeldCorpus(plan, next);
      Takes(plan, a, next, ReleaseCommits);
      next := Next(plan, next, ReleaseCommits);
    }
    if next.release.status.Active? {
      Takes(plan, a, next, ReleaseEnds(true));
      next := Next(plan, next, ReleaseEnds(true));
    }
  }

  lemma ReleaseSaves(plan: Plan, a: State, st: State) returns (next: State)
    requires plan.Valid() && At(plan, a, st) && st.journal.phase.Staged?
    requires st.proc == Some(Proc(AwaitRelease, st.journal)) && st.release.Successful()
    ensures At(plan, a, next) && next.journal.phase.Released? && next.proc.None?
    ensures next.roles.AllStopped() && next.release.Committed()
  {
    hide Leads, Settled, OnTarget, PodFits;
    Takes(plan, a, st, Do(Completes));
    var read := Next(plan, st, Do(Completes));
    Takes(plan, a, read, Do(Completes));
    next := Next(plan, read, Do(Completes));
  }

  // ---- From anywhere in between ----------------------------------------------------------------------------

  /** The commands compute, stage and release, given again after any crash, finish the transition:
      from every state of a held, computed or staged operation without a failed Job, if its roles
      can be staged at all, some run leads to the saved release. */
  lemma HeldCanBeReleased(plan: Plan, a: State) returns (end: State)
    requires plan.Valid() && Inv(plan, a) && a.journal.phase in {Held, Computed, Staged}
    requires plan.Target(Api).Ok? && plan.Target(Worker).Ok? && !Failing(a.compute) && !Failing(a.release)
    ensures Inv(plan, end) && Leads(plan, a, end)
    ensures end.journal.phase.Released? && end.proc.None? && end.roles.AllStopped() && end.release.Committed()
  {
    hide Leads, Inv, Runs;
    LeadsNowhere(plan, a);
    end := a;
    if end.proc.Some? { end := Crashes(plan, a, end); }
    if end.journal.phase.Held? {
      end := ComputeSubmits(plan, a, end);
      end := ComputeRuns(plan, a, end);
      end := ComputeReads(plan, a, end);
      end := ComputeSaves(plan, a, end);
    }
    if end.journal.phase.Computed? {
      NoReleaseYet(plan, end);
      end := StageBegins(plan, a, end);
      end := StageDoes(plan, a, end, Api);
      end := StageDoes(plan, a, end, Worker);
      NoReleaseYet(plan, end);
      end := StageSaves(plan, a, end);
    }
    end := ReleaseSubmits(plan, a, end);
    end := ReleaseRuns(plan, a, end);
    end := ReleaseSaves(plan, a, end);
  }

  lemma NoReleaseYet(plan: Plan, st: State)
    requires Inv(plan, st) && st.journal.phase.Computed?
    ensures st.release.NoJob?
  {
    hide FenceFits, RolesFit, DataFits, ProcFits;
  }

  lemma Crashes(plan: Plan, a: State, st: State) returns (next: State)
    requires plan.Valid() && At(plan, a, st) && st.proc.Some?
    ensures At(plan, a, next) && next == st.(proc := None)
  {
    hide Leads, Inv, Guard;
    Takes(plan, a, st, Do(FailsBefore));
    next := Next(plan, st, Do(FailsBefore));
  }
}
