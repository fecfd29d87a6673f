/** Runs in which overlapping commands take the phase of a credential transition back: a late command
    saves, from its old journal, a phase that others have long passed. */
module CredentialSetback {
  import opened Options
  import opened Workload
  import opened Credentials
  import opened CredentialSafety
  import opened CredentialProgress
  import opened CredentialOverlap
  import CredentialStage

  /** Overlapping commands can get somewhere and from there to a lower phase. */
  ghost predicate CanFall(plan: Plan, st: State) {
    exists mid, end ::
      Reaches(plan, System(st, map[]), mid) && Reaches(plan, mid, end)
      && Rank(end.world.journal.phase) < Rank(mid.world.journal.phase)
  }

  /** Every role is at nought or at its own count, so a command may scale it. */
  predicate CountsFit(st: State) { forall r: Role :: CountFits(st, r) }

  predicate CountFits(st: State, r: Role) {
    st.roles.Get(r).replicas == Some(0) || st.roles.Get(r).replicas == Some(Count(r))
  }

  predicate Stageable(plan: Plan) { plan.Target(Api).Ok? && plan.Target(Worker).Ok? }

  lemma FallsBack(plan: Plan, st: State, mid: System, end: System)
    requires Reaches(plan, System(st, map[]), mid) && Reaches(plan, mid, end)
    requires Rank(end.world.journal.phase) < Rank(mid.world.journal.phase)
    ensures CanFall(plan, st)
  {}

  /** A save that rests while others get past what it saves. */
  lemma LateSaveFalls(plan: Plan, st: State, late: State, ahead: State)
    requires plan.Valid() && st.proc.None? && Inv(plan, st) && At(plan, st, late)
    requires late.proc.Some? && !Holds(late.proc.value) && Guard(plan, ahead.(proc := late.proc), late.proc.value)
    requires Leads(plan, late.(proc := None), ahead) && ahead.proc.None?
    requires Rank(Effect(plan, ahead.(proc := late.proc), late.proc.value).journal.phase) < Rank(ahead.journal.phase)
    ensures CanFall(plan, st)
  {
    hide Reaches, At, Inv, Leads, Holds, Allowed;
    var mid, end := Overtakes(plan, st, late, ahead);
    LateEffect(plan, ahead, late.proc.value);
    hide Effect, Guard;
    FallsBack(plan, st, mid, end);
  }

  lemma LateEffect(plan: Plan, ahead: State, p: Proc)
    requires ahead.proc.None? && Allowed(plan, System(ahead, map[2 := p]), Move(2, Do(Completes)), false)
    ensures Moved(plan, System(ahead, map[2 := p]), Move(2, Do(Completes))).world
         == Effect(plan, ahead.(proc := Some(p)), p).(proc := None)
  {
    var sys := System(ahead, map[2 := p]);
    assert View(sys, 2) == ahead.(proc := Some(p));
    hide Effect, Guard, Learned;
  }

  // ---- Single calls ----------------------------------------------------------------------------------------

  lemma Starts(plan: Plan, st: State)
    requires Inv(plan, st)
    ensures At(plan, st, st)
  {
    LeadsNowhere(plan, st);
    hide Inv, Leads;
  }

  lemma Begins(plan: Plan, a: State, st: State, command: Command) returns (next: State)
    requires plan.Valid() && At(plan, a, st) && st.proc.None? && First(command, st.journal.phase).Some?
    ensures At(plan, a, next)
    ensures next == st.(proc := Some(Proc(First(command, st.journal.phase).value, st.journal)))
  {
    hide At, First;
    Takes(plan, a, st, Begin(command));
    next := Next(plan, st, Begin(command));
  }

  /** The last save of a command. */
  lemma Saves(plan: Plan, a: State, st: State) returns (next: State)
    requires plan.Valid() && At(plan, a, st) && st.proc.Some?
    requires var p := st.proc.value; Saved(p.call).Some? && After(p.call).None? && Guard(plan, st, p)
    ensures At(plan, a, next)
    ensures var p := st.proc.value;
      next == st.(journal := p.memory.(phase := Saved(p.call).value), proc := None)
  {
    hide At, Guard;
    Takes(plan, a, st, Do(Completes));
    next := Next(plan, st, Do(Completes));
  }

  function Another(op: nat, last: Option<nat>): (other: nat)
    ensures other != op && Some(other) != last
  {
    if op != 0 && last != Some(0) then 0 else if op != 1 && last != Some(1) then 1 else 2
  }

  /** Another operation may come and go, and leave another identity. */
  lemma OtherSets(plan: Plan, a: State, st: State, identity: nat) returns (next: State)
    requires plan.Valid() && At(plan, a, st) && st.proc.None? && !Owned(plan, st)
    requires st.maintenance.enabled ==> st.maintenance.op.Some?
    ensures At(plan, a, next) && next == st.(identity := identity, maintenance := next.maintenance)
    ensures !next.maintenance.enabled && next.maintenance.op != Some(plan.op)
  {
    hide At;
    next := st;
    if next.maintenance.enabled {
      Takes(plan, a, next, OtherLeaves);
      next := Next(plan, next, OtherLeaves);
    }
    var other: nat := Another(plan.op, next.maintenance.op);
    Takes(plan, a, next, OtherEnters(other));
    next := Next(plan, next, OtherEnters(other));
    Takes(plan, a, next, OtherChanges(next.corpus, identity));
    next := Next(plan, next, OtherChanges(next.corpus, identity));
    Takes(plan, a, next, OtherLeaves);
    next := Next(plan, next, OtherLeaves);
  }

  lemma {:induction false} PodsEnd(plan: Plan, a: State, st: State) returns (next: State)
    requires plan.Valid() && At(plan, a, st)
    ensures At(plan, a, next) && next == st.(pods := map[])
    decreases |st.pods|
  {
    hide At;
    next := st;
    if st.pods != map[] {
      var id :| id in st.pods;
      Takes(plan, a, st, PodEnds(id));
      assert |(st.pods - {id}).Keys| < |st.pods.Keys| by { assert (st.pods - {id}).Keys == st.pods.Keys - {id}; }
      next := PodsEnd(plan, a, Next(plan, st, PodEnds(id)));
    }
  }

  /** A role is scaled to `n`, and the command goes on to `then`. */
  lemma Scales(plan: Plan, a: State, st: State, call: Call, r: Role, n: nat, after: Call) returns (next: State)
    requires plan.Valid() && At(plan, a, st) && CountsFit(st) && st.proc == Some(Proc(call, st.journal))
    requires (call == ScaleDown(r) && n == 0) || (call == ScaleUp(r) && n == Count(r))
    requires After(call) == Some(after)
    ensures At(plan, a, next) && CountsFit(next)
    ensures next == st.(roles := next.roles, proc := Some(Proc(after, st.journal)))
  {
    hide Leads, After;
    OwnRole(plan, st, r);
    hide Inv;
    assert CountFits(st, r);
    ScaledCounts(st, r, n);
    ScaleStep(plan, st, call, r, n, after);
    hide CountsFit, Enabled, Next, CountFits;
    Takes(plan, a, st, Do(Completes));
    next := Next(plan, st, Do(Completes));
  }

  lemma ScaleStep(plan: Plan, st: State, call: Call, r: Role, n: nat, after: Call)
    requires SameUid(plan, st.roles, r) && CountFits(st, r) && st.proc == Some(Proc(call, st.journal))
    requires (call == ScaleDown(r) && n == 0) || (call == ScaleUp(r) && n == Count(r))
    requires After(call) == Some(after)
    ensures Enabled(plan, st, Do(Completes))
    ensures Next(plan, st, Do(Completes))
         == st.(roles := st.roles.With(r, st.roles.Get(r).At(n)), proc := Some(Proc(after, st.journal)))
  {
    hide After;
  }

  lemma ScaledCounts(st: State, r: Role, n: nat)
    requires CountsFit(st) && (n == 0 || n == Count(r))
    ensures forall next: State :: next.roles == st.roles.With(r, st.roles.Get(r).At(n)) ==> CountsFit(next)
  {
    WithGet(st.roles, r, st.roles.Get(r).At(n));
    forall next: State, q: Role | next.roles == st.roles.With(r, st.roles.Get(r).At(n)) ensures CountFits(next, q) {
      assert CountFits(st, q);
    }
  }

  lemma OwnRole(plan: Plan, st: State, r: Role)
    requires Inv(plan, st)
    ensures SameUid(plan, st.roles, r)
  {
    hide Settled, OnTarget, PodFits, FenceFits, JobsFit, DataFits, ProcFits;
  }

  // ---- Whole commands ----------------------------------------------------------------------------------------

  /** The first command up to its last save. */
  lemma ProvisionRests(plan: Plan, a: State, st: State) returns (next: State)
    requires plan.Valid() && At(plan, a, st) && st.proc.None? && st.journal.phase in {Prepared, Provisioned}
    ensures At(plan, a, next) && next == st.(proc := Some(Proc(SaveProvisioned, st.journal)))
  {
    hide At;
    next := Begins(plan, a, st, Provision);
    Takes(plan, a, next, Do(Completes));
    next := Next(plan, next, Do(Completes));
  }

  /** A command whose first call is its last. */
  lemma BeginsAndSaves(plan: Plan, a: State, st: State, command: Command) returns (next: State)
    requires plan.Valid() && At(plan, a, st) && st.proc.None?
    requires command.TestRights? || command.MakeSecrets?
    requires First(command, st.journal.phase).Some?
    ensures At(plan, a, next) && next.proc.None?
    ensures next.journal.phase == if command.TestRights? then RightsTested else SecretsReady
  {
    hide At;
    next := Begins(plan, a, st, command);
    next := Saves(plan, a, next);
  }

  /** The fence command up to the save before it enters. */
  lemma FenceRequests(plan: Plan, a: State, st: State) returns (next: State)
    requires plan.Valid() && At(plan, a, st) && st.proc.None? && st.journal.phase.SecretsReady?
    requires st.identity == plan.oldIdentity && SameSource(plan, st)
    ensures At(plan, a, next) && next.proc.None? && next.journal.phase.FenceRequested?
  {
    hide At, SameSource;
    next := Begins(plan, a, st, Fence);
    CheckPasses(plan, st);
    Takes(plan, a, next, Do(Completes));
    next := Next(plan, next, Do(Completes));
    Takes(plan, a, next, Do(FailsAfter));
    next := Next(plan, next, Do(FailsAfter));
  }

  lemma CheckPasses(plan: Plan, st: State)
    requires st.identity == plan.oldIdentity && SameSource(plan, st)
    ensures Enabled(plan, st.(proc := Some(Proc(CheckSource, st.journal))), Do(Completes))
  {
    assert forall r: Role :: SameUid(plan, st.roles, r) && st.roles.Get(r).SameSpec(plan.original.Get(r));
  }

  predicate Enterable(plan: Plan, st: State) {
    && st.identity == plan.oldIdentity
    && if st.maintenance.enabled then st.maintenance.op == Some(plan.op) else st.maintenance.op != Some(plan.op)
  }

  /** The fence command from its entry to the first role it scales. */
  lemma FenceEnters(plan: Plan, a: State, st: State) returns (next: State)
    requires plan.Valid() && At(plan, a, st) && st.proc.None? && st.journal.phase in {FenceRequested, Fenced}
    requires Enterable(plan, st)
    ensures At(plan, a, next) && next.journal.phase.Fenced? && next.proc == Some(Proc(ScaleDown(Api), next.journal))
    ensures next.roles == st.roles
  {
    hide At;
    next := Begins(plan, a, st, Fence);
    Takes(plan, a, next, Do(Completes));
    next := Next(plan, next, Do(Completes));
    Takes(plan, a, next, Do(Completes));
    next := Next(plan, next, Do(Completes));
  }

  lemma FenceScalesDown(plan: Plan, a: State, st: State) returns (next: State)
    requires plan.Valid() && At(plan, a, st) && CountsFit(st) && st.journal.phase.Fenced?
    requires st.proc == Some(Proc(ScaleDown(Api), st.journal))
    ensures At(plan, a, next) && next.journal == st.journal && next.proc == Some(Proc(AwaitDrained, st.journal))
  {
    hide At, CountsFit;
    next := Scales(plan, a, st, ScaleDown(Api), Api, 0, ScaleDown(Frontend));
    next := Scales(plan, a, next, ScaleDown(Frontend), Frontend, 0, ScaleDown(Stub));
    next := Scales(plan, a, next, ScaleDown(Stub), Stub, 0, ScaleDown(Worker));
    next := Scales(plan, a, next, ScaleDown(Worker), Worker, 0, AwaitDrained);
  }

  lemma FenceDrains(plan: Plan, a: State, st: State) returns (next: State)
    requires plan.Valid() && At(plan, a, st) && st.journal.phase.Fenced?
    requires st.proc == Some(Proc(AwaitDrained, st.journal))
    ensures At(plan, a, next) && next.journal.phase.Held? && next.proc.None? && next.compute.NoJob?
  {
    hide Leads, Inv;
    FencedHasNoJobs(plan, st);
    next := PodsEnd(plan, a, st);
    Takes(plan, a, next, Do(Completes));
    next := Next(plan, next, Do(Completes));
    Takes(plan, a, next, Do(Completes));
    next := Next(plan, next, Do(Completes));
    next := Saves(plan, a, next);
  }

  lemma FencedHasNoJobs(plan: Plan, st: State)
    requires Inv(plan, st) && Rank(st.journal.phase) <= 5
    ensures st.compute.NoJob? && st.release.NoJob?
  {
    hide FenceFits, RolesFit, DataFits, ProcFits;
  }

  /** As long as nothing is computed, the operation that holds everything may enter again. */
  lemma HeldIsEnterable(plan: Plan, st: State)
    requires Inv(plan, st) && st.journal.phase.Held? && st.compute.NoJob?
    ensures Enterable(plan, st) && Owned(plan, st)
  {
    hide RolesFit, DataFits, ProcFits;
  }

  lemma FenceHolds(plan: Plan, a: State, st: State) returns (next: State)
    requires plan.Valid() && At(plan, a, st) && st.proc.None? && st.journal.phase in {FenceRequested, Fenced}
    requires Enterable(plan, st) && CountsFit(st)
    ensures At(plan, a, next) && next.journal.phase.Held? && next.proc.None? && next.compute.NoJob?
  {
    hide At, CountsFit, Enterable;
    next := FenceEnters(plan, a, st);
    SameCounts(st, next);
    next := FenceScalesDown(plan, a, next);
    next := FenceDrains(plan, a, next);
  }

  lemma SameCounts(a: State, b: State)
    requires a.roles == b.roles
    ensures CountsFit(a) == CountsFit(b)
  {
    assert forall r: Role :: CountFits(a, r) == CountFits(b, r);
  }

  /** The compute command up to its save. */
  lemma ComputeRests(plan: Plan, a: State, st: State) returns (next: State)
    requires plan.Valid() && At(plan, a, st) && st.proc.None? && st.journal.phase in {Held, Computed}
    requires !Failing(st.compute)
    ensures At(plan, a, next) && next.journal == st.journal && next.compute.Successful()
    ensures next.proc == Some(Proc(SaveComputed, st.journal.(identity := Some(plan.newIdentity))))
  {
    hide Leads, Inv;
    next := ComputeSubmits(plan, a, st);
    next := ComputeRuns(plan, a, next);
    next := ComputeReads(plan, a, next);
  }

  /** The stage command up to its save, after whatever has to come before it. */
  lemma StageRests(plan: Plan, a: State, st: State) returns (next: State)
    requires plan.Valid() && At(plan, a, st) && st.proc.None? && st.journal.phase in {Held, Computed, Staged}
    requires Stageable(plan) && !Failing(st.compute) && !Failing(st.release)
    ensures At(plan, a, next) && next.proc == Some(Proc(SaveStaged, next.journal))
    ensures next.journal.phase in {Computed, Staged} && (st.journal.phase.Staged? ==> next.journal == st.journal)
    ensures !Failing(next.compute) && !Failing(next.release)
  {
    hide Leads, Inv;
    next := st;
    if next.journal.phase.Held? {
      next := ComputeRests(plan, a, next);
      next := ComputeSaves(plan, a, next);
    }
    if next.journal.phase.Staged? {
      next := ReleaseSubmits(plan, a, next);
      next := ReleaseRuns(plan, a, next);
      next := Crashes(plan, a, next);
    } else {
      NoReleaseYet(plan, next);
    }
    next := StageBegins(plan, a, next);
    next := StageDoes(plan, a, next, Api);
    next := StageDoes(plan, a, next, Worker);
    ComputeIsDone(plan, next);
  }

  lemma ComputeIsDone(plan: Plan, st: State)
    requires Inv(plan, st) && Rank(st.journal.phase) >= 7
    ensures !Failing(st.compute)
  {
    hide FenceFits, RolesFit, DataFits, ProcFits;
  }

  lemma StartOrder(phase: Phase)
    requires phase in {Released, Running}
    ensures First(Start, phase) == Some(ScaleUp(Stub)) && After(ScaleUp(Stub)) == Some(ScaleUp(Api))
    ensures After(ScaleUp(Api)) == Some(ScaleUp(Worker)) && After(ScaleUp(Worker)) == Some(ScaleUp(Frontend))
    ensures After(ScaleUp(Frontend)) == Some(SaveRunning)
  {}

  /** The start command up to its save. */
  lemma StartRests(plan: Plan, a: State, st: State) returns (next: State)
    requires plan.Valid() && At(plan, a, st) && CountsFit(st) && st.proc.None?
    requires st.journal.phase in {Released, Running}
    ensures At(plan, a, next) && CountsFit(next)
    ensures next == st.(roles := next.roles, proc := Some(Proc(SaveRunning, st.journal)))
  {
    StartOrder(st.journal.phase);
    hide At, CountsFit, First, After;
    next := Begins(plan, a, st, Start);
    SameCounts(st, next);
    next := Scales(plan, a, next, ScaleUp(Stub), Stub, 1, ScaleUp(Api));
    next := Scales(plan, a, next, ScaleUp(Api), Api, 2, ScaleUp(Worker));
    next := Scales(plan, a, next, ScaleUp(Worker), Worker, 2, ScaleUp(Frontend));
    next := Scales(plan, a, next, ScaleUp(Frontend), Frontend, 2, SaveRunning);
  }

  /** Nobody has entered maintenance since the release: the identity and the epoch are still its own. */
  lemma OwnEpoch(plan: Plan, st: State)
    requires Inv(plan, st) && Rank(st.journal.phase) >= 9 && st.maintenance.op == Some(plan.op)
    ensures st.identity == plan.newIdentity && !st.maintenance.enabled
    ensures st.journal.epoch == Some(st.maintenance.epoch)
  {
    hide RolesFit, DataFits, ProcFits;
  }

  lemma VerifyRests(plan: Plan, a: State, st: State) returns (next: State)
    requires plan.Valid() && At(plan, a, st) && st.proc.None? && st.journal.phase.Running?
    requires st.maintenance.op == Some(plan.op)
    ensures At(plan, a, next) && next == st.(proc := Some(Proc(NoteProbe, st.journal)))
  {
    hide Inv, Leads, Enabled, Next;
    OwnEpoch(plan, st);
    VerifyPasses(plan, st);
    next := Begins(plan, a, st, Verify);
    Takes(plan, a, next, Do(Completes));
    next := Next(plan, next, Do(Completes));
  }

  lemma VerifyPasses(plan: Plan, st: State)
    requires st.identity == plan.newIdentity && !st.maintenance.enabled && st.maintenance.op == Some(plan.op)
    requires st.journal.epoch == Some(st.maintenance.epoch)
    ensures var a := st.(proc := Some(Proc(CheckRunning, st.journal)));
      && Enabled(plan, a, Do(Completes))
      && Next(plan, a, Do(Completes)) == st.(proc := Some(Proc(NoteProbe, st.journal)))
  {}

  lemma VerifyNotes(plan: Plan, a: State, st: State) returns (next: State)
    requires plan.Valid() && At(plan, a, st) && st.proc == Some(Proc(NoteProbe, st.journal))
    ensures At(plan, a, next)
    ensures var noted := st.journal.(probe := true);
      next == st.(journal := noted, proc := Some(Proc(NoteDocument, noted)))
  {
    hide At;
    Takes(plan, a, st, Do(Completes));
    next := Next(plan, st, Do(Completes));
  }

  lemma VerifyEnds(plan: Plan, a: State, st: State) returns (next: State)
    requires plan.Valid() && At(plan, a, st) && st.proc.None? && st.journal.phase.Running?
    requires st.maintenance.op == Some(plan.op)
    ensures At(plan, a, next) && next.journal.phase.Verified? && next.proc.None? && next.identity == st.identity
  {
    hide At;
    next := VerifyRests(plan, a, st);
    next := VerifyNotes(plan, a, next);
    Takes(plan, a, next, Do(Completes));
    next := Next(plan, next, Do(Completes));
    next := Saves(plan, a, next);
  }

  // ---- Late commands ---------------------------------------------------------------------------------------

  lemma SaveEffect(plan: Plan, st: State, p: Proc)
    requires Saved(p.call).Some? && (p.call.SaveRunning? ==> st.identity == plan.newIdentity)
    ensures Guard(plan, st, p)
    ensures var done := Effect(plan, st, p);
      && done.journal == p.memory.(phase := Saved(p.call).value)
      && done.roles == st.roles && done.release == st.release
  {
    hide CredentialStage.StageCredential;
  }

  lemma LateSave(plan: Plan, st: State, late: State, ahead: State)
    requires plan.Valid() && st.proc.None? && Inv(plan, st) && At(plan, st, late)
    requires late.proc.Some? && !Holds(late.proc.value) && Saved(late.proc.value.call).Some?
    requires Leads(plan, late.(proc := None), ahead) && ahead.proc.None?
    requires late.proc.value.call.SaveRunning? ==> ahead.identity == plan.newIdentity
    requires Rank(Saved(late.proc.value.call).value) < Rank(ahead.journal.phase)
    ensures CanFall(plan, st)
  {
    hide At, Inv, Leads, CanFall;
    SaveEffect(plan, ahead.(proc := late.proc), late.proc.value);
    hide Holds, Guard, Effect, Saved;
    LateSaveFalls(plan, st, late, ahead);
  }

  lemma FirstPhasesFall(plan: Plan, st: State)
    requires plan.Valid() && Inv(plan, st) && st.proc.None? && st.journal.phase in {Prepared, Provisioned, RightsTested}
    ensures CanFall(plan, st)
  {
    Starts(plan, st);
    hide At, Inv, CanFall;
    var late, ahead;
    if st.journal.phase.RightsTested? {
      late := Begins(plan, st, st, TestRights);
      ahead := BeginsAndSaves(plan, st, st, MakeSecrets);
    } else {
      late := ProvisionRests(plan, st, st);
      ahead := st;
      if st.journal.phase.Prepared? {
        ahead := ProvisionRests(plan, st, st);
        ahead := Saves(plan, st, ahead);
      }
      ahead := BeginsAndSaves(plan, st, ahead, TestRights);
    }
    assert late.(proc := None) == st;
    AtLeads(plan, st, ahead);
    LateSave(plan, st, late, ahead);
  }

  /** The world of a command at rest, for the others. */
  lemma Rests(plan: Plan, a: State, late: State) returns (rest: State)
    requires At(plan, a, late)
    ensures rest == late.(proc := None) && At(plan, rest, rest)
  {
    rest := late.(proc := None);
    LeaveInv(plan, late);
    Starts(plan, rest);
    hide Inv, Leads;
  }

  lemma AtLeads(plan: Plan, a: State, st: State)
    requires At(plan, a, st)
    ensures Leads(plan, a, st) && Inv(plan, st)
  {}

  lemma SecretsFall(plan: Plan, st: State)
    requires plan.Valid() && Inv(plan, st) && st.proc.None? && st.journal.phase.SecretsReady?
    requires SameSource(plan, st) && (st.maintenance.enabled ==> st.maintenance.op.Some?)
    ensures CanFall(plan, st)
  {
    hide At, Inv, CanFall, SameSource, Leads;
    Starts(plan, st);
    NotOwned(plan, st);
    var late := Begins(plan, st, st, MakeSecrets);
    var ahead := RequestsAnew(plan, st);
    assert late.(proc := None) == st;
    LateSave(plan, st, late, ahead);
  }

  lemma RequestsAnew(plan: Plan, st: State) returns (next: State)
    requires plan.Valid() && At(plan, st, st) && st.proc.None? && st.journal.phase.SecretsReady? && !Owned(plan, st)
    requires SameSource(plan, st) && (st.maintenance.enabled ==> st.maintenance.op.Some?)
    ensures Leads(plan, st, next) && next.proc.None? && next.journal.phase.FenceRequested?
  {
    hide Inv, Leads, SameSource;
    next := st;
    if st.identity != plan.oldIdentity { next := OtherSets(plan, st, st, plan.oldIdentity); }
    SourceStays(plan, st, next);
    next := FenceRequests(plan, st, next);
  }

  lemma SourceStays(plan: Plan, a: State, b: State)
    requires a.roles == b.roles
    ensures SameSource(plan, a) == SameSource(plan, b)
  {}

  /** Before the fence is requested and once it is released, maintenance is not this operation's. */
  lemma NotOwned(plan: Plan, st: State)
    requires Inv(plan, st) && (Rank(st.journal.phase) <= 3 || Rank(st.journal.phase) >= 9)
    ensures !Owned(plan, st)
  {
    hide RolesFit, DataFits, ProcFits;
  }

  /** A fence command that rests before it enters takes the saved phase back to the fence, as long as
      nothing is computed. */
  lemma FenceFalls(plan: Plan, st: State)
    requires plan.Valid() && Inv(plan, st) && st.proc.None? && st.journal.phase in {FenceRequested, Fenced}
    requires CountsFit(st) && (st.maintenance.enabled ==> st.maintenance.op.Some?)
    ensures CanFall(plan, st)
  {
    Starts(plan, st);
    hide At, Inv, CanFall, CountsFit;
    var open := FenceOpens(plan, st);
    var late := Begins(plan, st, open, Fence);
    Starts(plan, open) by { AtLeads(plan, st, open); }
    SameCounts(st, open);
    var ahead := FenceHolds(plan, open, open);
    assert late.(proc := None) == open;
    AtLeads(plan, open, ahead);
    HeldIsEnterable(plan, ahead);
    LateEntryFalls(plan, st, late, ahead);
  }

  lemma FenceOpens(plan: Plan, st: State) returns (open: State)
    requires plan.Valid() && Inv(plan, st) && st.proc.None? && st.journal.phase in {FenceRequested, Fenced}
    requires st.maintenance.enabled ==> st.maintenance.op.Some?
    ensures At(plan, st, open) && Enterable(plan, open) && open.proc.None?
    ensures open.journal == st.journal && open.roles == st.roles
  {
    hide At, Inv;
    Starts(plan, st);
    open := st;
    if Owned(plan, st) {
      FenceIsEnterable(plan, st);
    } else if !Enterable(plan, st) {
      open := OtherSets(plan, st, st, plan.oldIdentity);
    }
  }

  lemma FenceIsEnterable(plan: Plan, st: State)
    requires Inv(plan, st) && Owned(plan, st) && Rank(st.journal.phase) <= 5
    ensures Enterable(plan, st)
  {
    FencedHasNoJobs(plan, st);
    hide RolesFit, DataFits, ProcFits, JobsFit;
  }

  lemma LateEntryFalls(plan: Plan, st: State, late: State, ahead: State)
    requires plan.Valid() && st.proc.None? && Inv(plan, st) && At(plan, st, late)
    requires late.proc.Some? && late.proc.value.call.Enter?
    requires Leads(plan, late.(proc := None), ahead) && ahead.proc.None?
    requires Enterable(plan, ahead) && Owned(plan, ahead) && ahead.journal.phase.Held?
    ensures CanFall(plan, st)
  {
    hide At, Inv, Leads, Reaches, CanFall;
    var mid, entered := Overtakes(plan, st, late, ahead);
    var end := LateEntrySaves(plan, ahead, late.proc.value);
    ReachesOn(plan, mid, entered, end);
    FallsBack(plan, st, mid, end);
  }

  lemma LateEntrySaves(plan: Plan, ahead: State, p: Proc) returns (end: System)
    requires ahead.proc.None? && p.call.Enter? && Enterable(plan, ahead) && Owned(plan, ahead)
    requires Allowed(plan, System(ahead, map[2 := p]), Move(2, Do(Completes)), false)
    ensures Reaches(plan, Moved(plan, System(ahead, map[2 := p]), Move(2, Do(Completes))), end)
    ensures end.world.journal.phase.Fenced?
  {
    hide Reaches;
    var mid, m := System(ahead, map[2 := p]), Move(2, Do(Completes));
    var entered := Moved(plan, mid, m);
    var q := Proc(SaveFenced, p.memory.(epoch := Some(ahead.maintenance.epoch)));
    assert View(mid, 2) == ahead.(proc := Some(p));
    assert entered == System(ahead, map[2 := q]);
    assert View(entered, 2) == ahead.(proc := Some(q));
    end := Moved(plan, entered, m);
    ReachesMove(plan, entered, m);
  }

  lemma HeldFalls(plan: Plan, st: State)
    requires plan.Valid() && Inv(plan, st) && st.proc.None? && st.journal.phase in {Held, Computed}
    requires Stageable(plan) && !Failing(st.compute)
    ensures CanFall(plan, st)
  {
    hide At, Inv, CanFall, Stageable, Leads;
    Starts(plan, st);
    var late := ComputeRests(plan, st, st);
    var rest := Rests(plan, st, late);
    var ahead := StagesAnew(plan, rest);
    LateSave(plan, st, late, ahead);
  }

  lemma StagesAnew(plan: Plan, st: State) returns (next: State)
    requires plan.Valid() && At(plan, st, st) && st.proc.None? && st.journal.phase in {Held, Computed}
    requires Stageable(plan) && !Failing(st.compute)
    ensures Leads(plan, st, next) && next.journal.phase.Staged? && next.proc.None?
  {
    hide Inv, Leads, Stageable;
    NoReleaseBefore(plan, st);
    next := StageRests(plan, st, st);
    next := Saves(plan, st, next);
  }

  lemma NoReleaseBefore(plan: Plan, st: State)
    requires Inv(plan, st) && st.journal.phase in {Held, Computed}
    ensures st.release.NoJob?
  {
    hide FenceFits, RolesFit, DataFits, ProcFits;
  }

  lemma StagedFalls(plan: Plan, st: State)
    requires plan.Valid() && Inv(plan, st) && st.proc.None? && st.journal.phase.Staged? && !Failing(st.release)
    ensures CanFall(plan, st)
  {
    hide At, Inv, CanFall, Leads;
    Starts(plan, st);
    ComputeIsDone(plan, st);
    StagedIsStageable(plan, st);
    var late := StageRests(plan, st, st);
    var rest := Rests(plan, st, late);
    AtLeads(plan, rest, rest);
    var ahead := HeldCanBeReleased(plan, rest);
    LateSave(plan, st, late, ahead);
  }

  lemma StagedIsStageable(plan: Plan, st: State)
    requires Inv(plan, st) && Rank(st.journal.phase) >= 8
    ensures plan.Target(Api).Ok? && plan.Target(Worker).Ok? && Stageable(plan)
  {
    hide FenceFits, JobsFit, DataFits, ProcFits;
  }

  lemma StartFalls(plan: Plan, st: State)
    requires plan.Valid() && Inv(plan, st) && st.proc.None? && st.journal.phase in {Released, Running}
    requires CountsFit(st) && st.maintenance.op == Some(plan.op)
    ensures CanFall(plan, st)
  {
    hide At, Inv, CanFall, CountsFit, Leads;
    Starts(plan, st);
    OwnEpoch(plan, st);
    var late := StartRests(plan, st, st);
    var rest := Rests(plan, st, late);
    SameCounts(late, rest);
    var ahead := VerifiesAnew(plan, rest);
    LateSave(plan, st, late, ahead);
  }

  lemma VerifiesAnew(plan: Plan, st: State) returns (next: State)
    requires plan.Valid() && At(plan, st, st) && st.proc.None? && st.journal.phase in {Released, Running}
    requires st.maintenance.op == Some(plan.op) && (st.journal.phase.Released? ==> CountsFit(st))
    ensures Leads(plan, st, next) && next.journal.phase.Verified? && next.proc.None? && next.identity == st.identity
  {
    hide Inv, Leads, CountsFit;
    OwnEpoch(plan, st);
    next := st;
    if st.journal.phase.Released? { next := RunsAnew(plan, st, st); }
    next := VerifyEnds(plan, st, next);
  }

  lemma RunsAnew(plan: Plan, a: State, st: State) returns (next: State)
    requires plan.Valid() && At(plan, a, st) && st.proc.None? && st.journal.phase.Released?
    requires CountsFit(st) && st.identity == plan.newIdentity
    ensures At(plan, a, next) && next.proc.None? && next.journal.phase.Running?
    ensures next.maintenance == st.maintenance && next.identity == st.identity
  {
    hide At, CountsFit;
    next := StartRests(plan, a, st);
    next := Saves(plan, a, next);
  }

  /** As long as no role is up the release may be observed again, and saved late. */
  lemma ReleaseFalls(plan: Plan, st: State)
    requires plan.Valid() && Inv(plan, st) && st.proc.None? && st.journal.phase.Released?
    requires st.roles.AllStopped() && (st.maintenance.enabled ==> st.maintenance.op.Some?)
    ensures CanFall(plan, st)
  {
    hide At, Inv, CanFall, CountsFit, Leads, State.Drained;
    var late := ReleaseRests(plan, st);
    var rest := Rests(plan, st, late);
    var ahead := RunsAnew(plan, rest, rest);
    AtLeads(plan, rest, ahead);
    LateSave(plan, st, late, ahead);
  }

  lemma ReleaseRests(plan: Plan, st: State) returns (late: State)
    requires plan.Valid() && Inv(plan, st) && st.proc.None? && st.journal.phase.Released?
    requires st.roles.AllStopped() && (st.maintenance.enabled ==> st.maintenance.op.Some?)
    ensures At(plan, st, late) && late.journal == st.journal && late.identity == plan.newIdentity
    ensures late.proc.Some? && late.proc.value.call.SaveReleased? && CountsFit(late.(proc := None))
  {
    hide At, Inv;
    Starts(plan, st);
    NotOwned(plan, st);
    AllOwn(plan, st);
    StoppedCounts(st);
    late := st;
    if st.identity != plan.newIdentity { late := OtherSets(plan, st, st, plan.newIdentity); }
    late := PodsEnd(plan, st, late);
    StoppedStays(plan, st, late);
    hide StoppedRoles, CountsFit;
    late := ReleaseObserved(plan, st, late);
    SameCounts(st, late.(proc := None));
  }

  lemma ReleaseObserved(plan: Plan, a: State, st: State) returns (late: State)
    requires plan.Valid() && At(plan, a, st) && st.proc.None? && st.journal.phase.Released?
    requires StoppedRoles(plan, st) && st.pods == map[]
    ensures At(plan, a, late) && late == st.(proc := late.proc)
    ensures late.proc.Some? && late.proc.value.call.SaveReleased?
  {
    hide Inv, Leads, Enabled, Next, StoppedRoles;
    JobsAreDone(plan, st);
    ReleasePasses(plan, st);
    late := Begins(plan, a, st, Release);
    Takes(plan, a, late, Do(Completes));
    late := Next(plan, late, Do(Completes));
    Takes(plan, a, late, Do(Completes));
    late := Next(plan, late, Do(Completes));
  }

  lemma ReleasePasses(plan: Plan, st: State)
    requires StoppedRoles(plan, st) && st.pods == map[] && st.compute.Finished()
    requires st.release.Successful() && st.release.committed == st.journal.epoch
    ensures var a := st.(proc := Some(Proc(SubmitRelease, st.journal)));
      && Enabled(plan, a, Do(Completes))
      && Next(plan, a, Do(Completes)) == st.(proc := Some(Proc(AwaitRelease, st.journal)))
    ensures var a := st.(proc := Some(Proc(AwaitRelease, st.journal)));
      && Enabled(plan, a, Do(Completes))
      && Next(plan, a, Do(Completes))
           == st.(proc := Some(Proc(SaveReleased, st.journal.(receipt := st.release.committed))))
  {
    StoppedStays(plan, st, st.(proc := Some(Proc(SubmitRelease, st.journal))));
    hide StoppedRoles;
  }

  lemma JobsAreDone(plan: Plan, st: State)
    requires Inv(plan, st) && Rank(st.journal.phase) >= 9
    ensures st.compute.Finished() && st.release.Successful() && st.release.committed == st.journal.epoch
  {
    hide FenceFits, RolesFit, DataFits, ProcFits;
  }

  lemma AllOwn(plan: Plan, st: State)
    requires Inv(plan, st) && st.roles.AllStopped()
    ensures StoppedRoles(plan, st)
  {
    hide FenceFits, JobsFit, DataFits, ProcFits;
  }

  lemma StoppedCounts(st: State)
    requires st.roles.AllStopped()
    ensures CountsFit(st)
  {}

  lemma StoppedStays(plan: Plan, a: State, b: State)
    requires a.roles == b.roles
    ensures StoppedRoles(plan, a) == StoppedRoles(plan, b)
  {}

  /** A late note of the last command writes its old phase as well. */
  lemma NoteFalls(plan: Plan, st: State)
    requires plan.Valid() && Inv(plan, st) && st.proc.None? && st.journal.phase.Running?
    requires !(st.journal.probe && st.journal.document) && st.maintenance.op == Some(plan.op)
    ensures CanFall(plan, st)
  {
    hide At, Inv, CanFall, Leads;
    Starts(plan, st);
    var late := VerifyRests(plan, st, st);
    if st.journal.probe { late := VerifyNotes(plan, st, late); }
    var rest := Rests(plan, st, late);
    var ahead := VerifiesAnew(plan, rest);
    NoteEffect(plan, ahead.(proc := late.proc), late.proc.value);
    LateSaveFalls(plan, st, late, ahead);
  }

  lemma NoteEffect(plan: Plan, st: State, p: Proc)
    requires (p.call.NoteProbe? && !p.memory.probe) || (p.call.NoteDocument? && !p.memory.document)
    ensures Guard(plan, st, p) && Effect(plan, st, p).journal.phase == p.memory.phase && !Holds(p)
  {}

  // ---- A role that is up behind a phase that says none is -----------------------------------------------------

  lemma StubStarts(plan: Plan, st: State) returns (up: State)
    requires plan.Valid() && Inv(plan, st) && st.proc.None? && st.journal.phase.Released?
    requires st.roles.AllStopped() && st.release.Committed()
    ensures Leads(plan, st, up) && up.proc.None? && up.journal.phase.Released?
    ensures !up.roles.AllStopped() && up.release.Committed()
  {
    hide Leads, Inv;
    Starts(plan, st);
    OwnRole(plan, st, Stub);
    assert st.roles.Get(Stub).replicas == Some(0);
    up := Begins(plan, st, st, Start);
    Takes(plan, st, up, Do(FailsAfter));
    up := Next(plan, up, Do(FailsAfter));
    assert up.roles.Get(Stub).replicas == Some(1);
  }

  /** A stage command rests before its save; others release, and start a role; then it saves that all is
      staged, with no fence and a role up. */
  lemma OverlapUndoesRelease(plan: Plan, st: State) returns (mid: System, end: System)
    requires plan.Valid() && Inv(plan, st) && st.proc.None? && st.journal.phase in {Held, Computed, Staged}
    requires Stageable(plan) && !Failing(st.compute) && !Failing(st.release)
    ensures Reaches(plan, System(st, map[]), mid) && Reaches(plan, mid, end)
    ensures mid.world.journal.phase.Released? && end.world.journal.phase.Staged?
    ensures !end.world.roles.AllStopped() && end.world.release.Committed()
  {
    hide At, Inv, Leads, Reaches;
    Starts(plan, st);
    var late := StageRests(plan, st, st);
    var rest := Rests(plan, st, late);
    AtLeads(plan, rest, rest);
    var released := HeldCanBeReleased(plan, rest);
    var up := StubStarts(plan, released);
    LeadsOn(plan, rest, released, up);
    SaveEffect(plan, up.(proc := late.proc), late.proc.value);
    mid, end := Overtakes(plan, st, late, up);
    LateEffect(plan, up, late.proc.value);
    hide Allowed, Effect, Guard;
  }
}
