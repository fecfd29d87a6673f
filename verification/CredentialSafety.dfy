/** What every run of the credential transition keeps. */
module CredentialSafety {
  import opened Options
  import opened Results
  import opened Workload
  import opened Credentials
  import Bindings
  import CredentialStage

  // ---- The world moves by itself ---------------------------------------------------------------------

  lemma JobStepInv(plan: Plan, st: State, step: Step)
    requires Inv(plan, st) && Enabled(plan, st, step)
    requires step.ComputeCommits? || step.ComputeEnds? || step.ReleaseCommits? || step.ReleaseEnds?
    ensures Inv(plan, Next(plan, st, step))
  {
    hide Settled, OnTarget, PodFits;
  }

  lemma PodStepInv(plan: Plan, st: State, step: Step)
    requires Inv(plan, st) && Enabled(plan, st, step)
    requires step.PodStarts? || step.PodEnds?
    ensures Inv(plan, Next(plan, st, step))
  {
    hide FenceFits, JobsFit, RolesFit, DataFits, ProcFits;
    var next := Next(plan, st, step);
    PodsKeepRest(plan, st, next);
    if step.PodStarts? { PodStartsFit(plan, st, step.id, step.role); } else { PodEndsFit(plan, st, step.id); }
    PodsFitProc(plan, st, step);
  }

  lemma PodsKeepRest(plan: Plan, a: State, b: State)
    requires b == a.(pods := b.pods)
    ensures FenceFits(plan, a) == FenceFits(plan, b) && JobsFit(plan, a) == JobsFit(plan, b)
    ensures DataFits(a) == DataFits(b)
  {}

  lemma PodStartsFit(plan: Plan, st: State, id: nat, r: Role)
    requires RolesFit(plan, st) && st.roles.Get(r).replicas.Some? && st.roles.Get(r).replicas.value > 0
    ensures RolesFit(plan, st.(pods := st.pods[id := Pod(r, st.roles.Get(r).pod)]))
  {
    hide Settled, OnTarget, PodFits;
    if Rank(st.journal.phase) >= 8 { PodOfTarget(plan, st, r); }
  }

  lemma PodEndsFit(plan: Plan, st: State, id: nat)
    requires RolesFit(plan, st)
    ensures RolesFit(plan, st.(pods := st.pods - {id}))
  {
    hide Settled, OnTarget, PodFits;
  }

  /** From staging on a Pod that starts runs what its role says, which is staged. */
  lemma PodOfTarget(plan: Plan, st: State, r: Role)
    requires RolesFit(plan, st) && Rank(st.journal.phase) >= 8
    ensures PodFits(plan, Pod(r, st.roles.Get(r).pod))
  {
    hide Settled;
  }

  lemma PodsFitProc(plan: Plan, st: State, step: Step)
    requires Enabled(plan, st, step) && (step.PodStarts? || step.PodEnds?)
    ensures st.proc.Some? && ProcFits(plan, st, st.proc.value) ==>
              ProcFits(plan, Next(plan, st, step), st.proc.value)
  {
    hide OnTarget;
  }

  lemma OtherStepInv(plan: Plan, st: State, step: Step)
    requires Inv(plan, st) && Enabled(plan, st, step)
    requires step.WriterCommits? || step.OtherEnters? || step.OtherLeaves? || step.OtherChanges?
    ensures Inv(plan, Next(plan, st, step))
  {
    hide Settled, OnTarget, PodFits;
  }

  lemma BeginInv(plan: Plan, st: State, step: Step)
    requires Inv(plan, st) && Enabled(plan, st, step) && step.Begin?
    ensures Inv(plan, Next(plan, st, step))
  {
    hide Settled, OnTarget, PodFits;
  }

  // ---- The running command ----------------------------------------------------------------------------

  /** The world after a call, whatever becomes of the process. */
  function Done(plan: Plan, st: State): State
    requires st.proc.Some?
  {
    Effect(plan, st, st.proc.value).(proc := None)
  }

  /** The process after a call, if the command goes on. */
  predicate GoesOn(plan: Plan, st: State, done: State, p: Proc) {
    After(p.call).Some? ==> ProcFits(plan, done, Proc(After(p.call).value, Learned(plan, done, p)))
  }

  lemma SaveInv(plan: Plan, st: State)
    requires Inv(plan, st) && st.proc.Some? && Guard(plan, st, st.proc.value)
    requires Saved(st.proc.value.call).Some?
    ensures Inv(plan, Done(plan, st)) && GoesOn(plan, st, Done(plan, st), st.proc.value)
  {
    hide Settled, OnTarget, PodFits;
  }

  lemma NoteInv(plan: Plan, st: State)
    requires Inv(plan, st) && st.proc.Some?
    requires var c := st.proc.value.call; c.NoteProvision? || c.NoteProbe? || c.NoteDocument?
    ensures Inv(plan, Done(plan, st)) && GoesOn(plan, st, Done(plan, st), st.proc.value)
  {
    hide Settled, OnTarget, PodFits;
  }

  lemma WaitInv(plan: Plan, st: State)
    requires Inv(plan, st) && st.proc.Some? && Guard(plan, st, st.proc.value)
    requires var c := st.proc.value.call;
      c.CheckSource? || c.AwaitDrained? || c.ReadCorpus? || c.AwaitCompute? || c.CheckDrained? || c.AwaitRelease?
      || c.Enter? || c.SubmitCompute? || c.SubmitRelease? || c.CheckRunning?
    ensures Inv(plan, Done(plan, st)) && GoesOn(plan, st, Done(plan, st), st.proc.value)
  {
    hide Settled, OnTarget, PodFits;
  }

  lemma WithGet(roles: Roles, r: Role, c: Controller)
    ensures forall q: Role :: roles.With(r, c).Get(q) == if q == r then c else roles.Get(q)
  {}

  lemma UidsKept(plan: Plan, roles: Roles, r: Role, c: Controller)
    requires c.uid == roles.Get(r).uid && forall q: Role :: SameUid(plan, roles, q)
    ensures forall q: Role :: SameUid(plan, roles.With(r, c), q)
  {
    forall q: Role ensures SameUid(plan, roles.With(r, c), q) {
      assert SameUid(plan, roles, q);
    }
  }

  lemma ScaledFits(plan: Plan, c: Controller, r: Role, n: nat)
    ensures Settled(plan, c.At(n), r) == Settled(plan, c, r)
    ensures OnTarget(plan, c.At(n), r) == OnTarget(plan, c, r)
  {
    assert c.At(n).At(0) == c.At(0);
  }

  lemma ScaleInv(plan: Plan, st: State)
    requires Inv(plan, st) && st.proc.Some? && Guard(plan, st, st.proc.value)
    requires st.proc.value.call.ScaleDown? || st.proc.value.call.ScaleUp?
    ensures Inv(plan, Done(plan, st)) && GoesOn(plan, st, Done(plan, st), st.proc.value)
  {
    hide PodFits, Settled, OnTarget;
    var r := st.proc.value.call.role;
    var n := if st.proc.value.call.ScaleDown? then 0 else Count(r);
    ScaledFits(plan, st.roles.Get(r), r, n);
    WithGet(st.roles, r, st.roles.Get(r).At(n));
    UidsKept(plan, st.roles, r, st.roles.Get(r).At(n));
  }

  /** Staging a role that is the stopped original or already staged gives the staged one. */
  lemma StageGives(plan: Plan, c: Controller, r: Role)
    requires plan.Valid() && (r == Api || r == Worker)
    requires c.replicas == Some(0) && (Settled(plan, c, r) || OnTarget(plan, c, r))
    requires CredentialStage.StageCredential(c, plan.original.Get(r), plan.switch).Ok?
    ensures var staged := CredentialStage.StageCredential(c, plan.original.Get(r), plan.switch);
      && staged == plan.Target(r) && OnTarget(plan, staged.value, r)
      && staged.value.replicas == Some(0) && staged.value.uid == plan.original.Get(r).uid
  {
    assert c.At(0) == c;
    CredentialStage.CredentialRestaged(plan.Stopped(r), plan.original.Get(r), plan.switch);
    hide CredentialStage.StageCredential;
    var staged := plan.Target(r).value;
    assert staged.At(0) == staged;
  }

  lemma StageReady(plan: Plan, st: State)
    requires Inv(plan, st) && st.proc.Some? && st.proc.value.call.Stage?
    ensures var r := st.proc.value.call.role;
      && (r == Api || r == Worker) && 7 <= Rank(st.journal.phase) <= 8
      && (Settled(plan, st.roles.Get(r), r) || OnTarget(plan, st.roles.Get(r), r))
      && st.roles.Get(r).replicas == Some(0)
      && st.proc.value.memory == st.journal
      && (r == Worker ==> OnTarget(plan, st.roles.api, Api))
  {
    hide Settled, OnTarget, PodFits, FenceFits, JobsFit, DataFits;
  }

  lemma StageInv(plan: Plan, st: State)
    requires plan.Valid() && Inv(plan, st) && st.proc.Some? && Guard(plan, st, st.proc.value)
    requires st.proc.value.call.Stage?
    ensures Inv(plan, Done(plan, st)) && GoesOn(plan, st, Done(plan, st), st.proc.value)
  {
    hide CredentialStage.StageCredential, Settled, OnTarget, FenceFits, JobsFit, DataFits, RolesFit, ProcFits;
    var r := st.proc.value.call.role;
    StageReady(plan, st);
    StageGives(plan, st.roles.Get(r), r);
    var c := plan.Target(r).value;
    hide Plan.Target;
    var done := Done(plan, st);
    assert done == st.(roles := st.roles.With(r, c), proc := None);
    hide Effect, Guard, Done;
    StagedRoles(plan, st, r, c);
    OtherPartsFit(plan, st, done);
    StageGoesOn(plan, st, done, r, c);
    hide GoesOn;
  }

  lemma StageGoesOn(plan: Plan, st: State, done: State, r: Role, c: Controller)
    requires st.proc.Some? && st.proc.value.call == Stage(r) && (r == Api || r == Worker)
    requires st.proc.value.memory == st.journal && 7 <= Rank(st.journal.phase) <= 8
    requires r == Worker ==> OnTarget(plan, st.roles.api, Api)
    requires OnTarget(plan, c, r) && done == st.(roles := st.roles.With(r, c), proc := None)
    ensures GoesOn(plan, st, done, st.proc.value)
  {
    hide OnTarget;
  }

  lemma OtherPartsFit(plan: Plan, a: State, b: State)
    requires b == a.(roles := b.roles, proc := b.proc)
    ensures FenceFits(plan, a) == FenceFits(plan, b) && JobsFit(plan, a) == JobsFit(plan, b)
    ensures DataFits(a) == DataFits(b)
  {}

  lemma StagedRoles(plan: Plan, st: State, r: Role, c: Controller)
    requires RolesFit(plan, st) && 7 <= Rank(st.journal.phase) <= 8 && (r == Api || r == Worker)
    requires OnTarget(plan, c, r) && c.replicas == Some(0) && c.uid == plan.original.Get(r).uid
    ensures RolesFit(plan, st.(roles := st.roles.With(r, c), proc := None))
  {
    hide Settled, OnTarget, PodFits;
    assert SameUid(plan, st.roles, r);
    UidsKept(plan, st.roles, r, c);
    WithGet(st.roles, r, c);
  }

  lemma DoInv(plan: Plan, st: State, step: Step)
    requires plan.Valid() && Inv(plan, st) && Enabled(plan, st, step) && step.Do?
    ensures Inv(plan, Next(plan, st, step))
  {
    hide Effect, FenceFits, JobsFit, RolesFit, DataFits, ProcFits, GoesOn, Guard;
    if step.outcome.FailsBefore? {
      SameWorld(plan, st.(proc := None), st);
    } else {
      var c := st.proc.value.call;
      if Saved(c).Some? {
        SaveInv(plan, st);
      } else if c.NoteProvision? || c.NoteProbe? || c.NoteDocument? {
        NoteInv(plan, st);
      } else if c.Stage? {
        StageInv(plan, st);
      } else if c.ScaleDown? || c.ScaleUp? {
        ScaleInv(plan, st);
      } else {
        WaitInv(plan, st);
      }
      hide Saved;
      Continued(plan, st, step);
    }
  }

  lemma Continued(plan: Plan, st: State, step: Step)
    requires Enabled(plan, st, step) && step.Do? && !step.outcome.FailsBefore?
    requires Inv(plan, Done(plan, st)) && GoesOn(plan, st, Done(plan, st), st.proc.value)
    ensures Inv(plan, Next(plan, st, step))
  {
    var done := Done(plan, st);
    var p := st.proc.value;
    var more := Effect(plan, st, p);
    SameWorld(plan, done, more);
    SameLearned(plan, done, more, p);
    hide Effect, Guard, FenceFits, JobsFit, RolesFit, DataFits, Learned, After, ProcFits;
    var next := Next(plan, st, step);
    SameWorld(plan, done, next.(proc := None));
    if next.proc.Some? {
      SameProc(plan, done, next, next.proc.value);
      SameWorld(plan, done, next);
    }
  }

  lemma SameLearned(plan: Plan, a: State, b: State, p: Proc)
    requires a == b.(proc := None)
    ensures Learned(plan, a, p) == Learned(plan, b, p)
  {}

  lemma SameProc(plan: Plan, a: State, b: State, p: Proc)
    requires a == b.(proc := None)
    ensures ProcFits(plan, a, p) == ProcFits(plan, b, p)
  {
    hide Settled, OnTarget;
  }

  lemma SameWorld(plan: Plan, a: State, b: State)
    requires a == b.(proc := None)
    ensures FenceFits(plan, a) == FenceFits(plan, b) && JobsFit(plan, a) == JobsFit(plan, b)
    ensures RolesFit(plan, a) == RolesFit(plan, b) && DataFits(a) == DataFits(b)
  {
    hide Settled, OnTarget, PodFits;
  }

  lemma StepInv(plan: Plan, st: State, step: Step)
    requires plan.Valid() && Inv(plan, st) && Enabled(plan, st, step)
    ensures Inv(plan, Next(plan, st, step))
  {
    match step
    case Begin(_) => BeginInv(plan, st, step);
    case Do(_) => DoInv(plan, st, step);
    case ComputeCommits => JobStepInv(plan, st, step);
    case ComputeEnds(_) => JobStepInv(plan, st, step);
    case ReleaseCommits => JobStepInv(plan, st, step);
    case ReleaseEnds(_) => JobStepInv(plan, st, step);
    case PodStarts(_, _) => PodStepInv(plan, st, step);
    case PodEnds(_) => PodStepInv(plan, st, step);
    case WriterCommits(_) => OtherStepInv(plan, st, step);
    case OtherEnters(_) => OtherStepInv(plan, st, step);
    case OtherLeaves => OtherStepInv(plan, st, step);
    case OtherChanges(_, _) => OtherStepInv(plan, st, step);
  }

  // ---- Every run ---------------------------------------------------------------------------------------

  predicate Runs(plan: Plan, st: State, steps: seq<Step>, end: State)
    decreases |steps|
  {
    if steps == [] then st == end
    else Enabled(plan, st, steps[0]) && Runs(plan, Next(plan, st, steps[0]), steps[1..], end)
  }

  /** A step never takes the durable phase back. */
  lemma PhaseAdvances(plan: Plan, st: State, step: Step)
    requires Inv(plan, st) && Enabled(plan, st, step)
    ensures Rank(Next(plan, st, step).journal.phase) >= Rank(st.journal.phase)
  {
    hide FenceFits, JobsFit, RolesFit, DataFits, ProcFits, Guard, Effect, Saved, After, Learned, Rank, Foreign, First, Owned;
    if step.Do? { SavesOnward(plan, st, st.proc.value); }
  }

  /** What a command saves is not behind what is saved. */
  lemma SavesOnward(plan: Plan, st: State, p: Proc)
    requires ProcFits(plan, st, p)
    ensures Rank(Effect(plan, st, p).journal.phase) >= Rank(st.journal.phase)
  {
    hide OnTarget, Owned, CredentialStage.StageCredential;
  }

  lemma {:induction false} RunInv(plan: Plan, st: State, steps: seq<Step>, end: State)
    requires plan.Valid() && Inv(plan, st) && Runs(plan, st, steps, end)
    ensures Inv(plan, end) && Rank(end.journal.phase) >= Rank(st.journal.phase)
    decreases |steps|
  {
    if steps != [] {
      StepInv(plan, st, steps[0]);
      PhaseAdvances(plan, st, steps[0]);
      hide Inv, Enabled, Next;
      RunInv(plan, Next(plan, st, steps[0]), steps[1..], end);
    }
  }

  /** From a prepared operation, through any commands, crashes, Jobs and other operations: while
      the phase is held, computed or staged no role is up and no Pod runs; from the recorded fence
      until the release has committed maintenance is this operation's, at the recorded epoch; from
      staging on, a Pod of the api or the worker runs the staged template and no other. */
  lemma TransitionIsSafe(plan: Plan, st: State, steps: seq<Step>, end: State)
    requires Init(plan, st) && Runs(plan, st, steps, end)
    ensures end.journal.phase in {Held, Computed, Staged} ==>
              end.roles.AllStopped() && end.pods == map[]
    ensures 5 <= Rank(end.journal.phase) <= 8 && Unreleased(end) ==>
              Owned(plan, end) && end.journal.epoch == Some(end.maintenance.epoch)
    ensures Rank(end.journal.phase) >= 9 ==>
              end.release.Successful() && end.journal.receipt == end.release.committed == end.journal.epoch
    ensures Rank(end.journal.phase) >= 8 ==>
              forall id :: id in end.pods && end.pods[id].role in {Api, Worker} ==>
                Some(end.pods[id].spec) == match plan.Target(end.pods[id].role)
                                           case Ok(c) => Some(c.pod) case Refused => None
  {
    InitInv(plan, st);
    RunInv(plan, st, steps, end);
    hide Runs, Init, Inv, Rank;
    InvIsSafe(plan, end);
    StagedPods(plan, end);
  }

  lemma InvIsSafe(plan: Plan, st: State)
    requires Inv(plan, st)
    ensures st.journal.phase in {Held, Computed, Staged} ==> st.roles.AllStopped() && st.pods == map[]
    ensures 5 <= Rank(st.journal.phase) <= 8 && Unreleased(st) ==>
              Owned(plan, st) && st.journal.epoch == Some(st.maintenance.epoch)
    ensures Rank(st.journal.phase) >= 9 ==>
              st.release.Successful() && st.journal.receipt == st.release.committed == st.journal.epoch
  {
    hide ProcFits, DataFits, Settled, OnTarget, PodFits;
  }

  lemma StagedPods(plan: Plan, st: State)
    requires Inv(plan, st)
    ensures Rank(st.journal.phase) >= 8 ==>
              forall id :: id in st.pods && st.pods[id].role in {Api, Worker} ==>
                Some(st.pods[id].spec) == match plan.Target(st.pods[id].role)
                                          case Ok(c) => Some(c.pod) case Refused => None
  {
    hide ProcFits, DataFits, FenceFits, JobsFit, Settled, OnTarget, Plan.Target;
    forall id | id in st.pods && Rank(st.journal.phase) >= 8 ensures PodFits(plan, st.pods[id]) {}
  }

  /** A role goes up, once the operation has its fence, only when the release receipt is saved and
      is the release of the recorded epoch. */
  lemma RolesGoUpAfterReceipt(plan: Plan, st: State, step: Step, r: Role)
    requires Inv(plan, st) && Enabled(plan, st, step)
    requires st.roles.Get(r).replicas == Some(0) && Next(plan, st, step).roles.Get(r).replicas != Some(0)
    ensures st.proc.Some? && st.proc.value.call == ScaleUp(r)
    ensures Rank(st.journal.phase) >= 9 && st.journal.receipt.Some?
    ensures st.journal.receipt == st.journal.epoch == st.release.committed && st.release.status.Succeeded?
  {
    hide DataFits, RolesFit, ProcFits, JobsFit, FenceFits, Guard, Effect, After, Learned, Foreign, First, Owned;
    assert step.Do? && !step.outcome.FailsBefore?;
    OnlyScaleUpRaises(plan, st, st.proc.value, r);
    ReceiptOfRelease(plan, st, r);
  }

  lemma OnlyScaleUpRaises(plan: Plan, st: State, p: Proc, r: Role)
    requires st.roles.Get(r).replicas == Some(0) && Effect(plan, st, p).roles.Get(r).replicas != Some(0)
    ensures p.call == ScaleUp(r)
  {
    hide CredentialStage.StageCredential;
    if p.call.Stage? {
      StagedIsStopped(st.roles.Get(p.call.role), plan.original.Get(p.call.role), plan.switch);
    }
  }

  lemma ReceiptOfRelease(plan: Plan, st: State, r: Role)
    requires Inv(plan, st) && st.proc.Some? && st.proc.value.call == ScaleUp(r)
    ensures Rank(st.journal.phase) >= 9 && st.journal.receipt.Some?
    ensures st.journal.receipt == st.journal.epoch == st.release.committed && st.release.status.Succeeded?
  {
    hide DataFits, RolesFit;
  }

  lemma StagedIsStopped(c: Controller, original: Controller, s: CredentialStage.Switch)
    ensures var r := CredentialStage.StageCredential(c, original, s);
      r.Ok? ==> r.value.replicas == Some(0)
  {
    hide Bindings.RoleExpected, Bindings.SecretExpected, Bindings.TrustExpected, Rebound, WithSecret, WithConfig;
  }

  /** The release Job finds what it checks: as soon as it runs, maintenance is held by this
      operation, the identity is the computed one and the corpus the one that was held. */
  lemma ReleaseFindsHeldCorpus(plan: Plan, st: State)
    requires Inv(plan, st) && st.release.Job? && st.release.status.Active? && !st.release.Committed()
    ensures Enabled(plan, st, ReleaseCommits)
  {
    hide RolesFit, ProcFits;
  }

  /** While the fence is recorded and the release has not committed, no other operation gets in. */
  lemma OthersShutOut(plan: Plan, st: State, step: Step)
    requires Inv(plan, st) && Enabled(plan, st, step)
    requires 5 <= Rank(st.journal.phase) <= 8 && Unreleased(st)
    ensures !step.OtherEnters? && !step.OtherLeaves? && !step.OtherChanges? && !step.WriterCommits?
    ensures Next(plan, st, step).corpus == st.corpus
  {
    hide JobsFit, RolesFit, ProcFits, DataFits, Guard, Rank;
    assert Owned(plan, st);
    if step.Do? && !step.outcome.FailsBefore? { CallKeepsCorpus(plan, st, st.proc.value); }
    hide Effect, FenceFits, First, After, Learned;
  }

  lemma CallKeepsCorpus(plan: Plan, st: State, p: Proc)
    ensures Effect(plan, st, p).corpus == st.corpus
  {
    hide CredentialStage.StageCredential;
  }
}
