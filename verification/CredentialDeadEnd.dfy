/** From which saved phases overlapping commands can take a credential transition back, and from which
    they cannot: whatever keeps the operation from going on also keeps its phase from falling. */
module CredentialDeadEnd {
  import opened Options
  import opened Workload
  import opened Credentials
  import opened CredentialProgress
  import opened CredentialOverlap
  import opened CredentialSetback
  import CredentialStage

  /** What can be seen of an operation, before any command is given, that lets the phase fall. */
  predicate MayFall(plan: Plan, st: State) {
    match st.journal.phase
    case Prepared => true
    case Provisioned => true
    case RightsTested => true
    case SecretsReady => SameSource(plan, st)
    case FenceRequested => CountsFit(st)
    case Fenced => CountsFit(st)
    case Held => Stageable(plan) && !Failing(st.compute)
    case Computed => Stageable(plan)
    case Staged => !Failing(st.release)
    case Released => st.roles.AllStopped() || (CountsFit(st) && st.maintenance.op == Some(plan.op))
    case Running =>
      && st.maintenance.op == Some(plan.op)
      && (CountsFit(st) || !(st.journal.probe && st.journal.document))
    case Verified => false
  }

  // ---- What stands in the way --------------------------------------------------------------------------------

  datatype Block = Source | Counts(role: Role) | Computing | Staging(role: Role) | Releasing
                 | Starting(role: Role) | Following(role: Role) | Followed | Ending(role: Role) | Finished

  predicate Blocks(plan: Plan, st: State, b: Block) {
    match b
    case Source => st.journal.phase.SecretsReady? && !SameSource(plan, st)
    case Counts(r) => (st.journal.phase.FenceRequested? || st.journal.phase.Fenced?) && !CountFits(st, r)
    case Computing => st.journal.phase.Held? && Failing(st.compute)
    case Staging(r) => (st.journal.phase.Held? || st.journal.phase.Computed?) && !CanStageNow(plan, st, r)
    case Releasing => st.journal.phase.Staged? && Failing(st.release)
    case Starting(r) => st.journal.phase.Released? && !CountFits(st, r)
    case Following(r) =>
      && (st.journal.phase.Released? || st.journal.phase.Running?) && st.maintenance.op != Some(plan.op)
      && st.roles.Get(r).replicas != Some(0)
    case Followed => st.journal.phase.Running? && st.maintenance.op != Some(plan.op)
    case Ending(r) =>
      && (st.journal.phase.Running? || st.journal.phase.Verified?) && st.journal.probe && st.journal.document
      && !CountFits(st, r)
    case Finished => st.journal.phase.Verified?
  }

  predicate CanStageNow(plan: Plan, st: State, r: Role) {
    CredentialStage.StageCredential(st.roles.Get(r), plan.original.Get(r), plan.switch).Ok?
  }

  /** The order in which a command scales the roles. */
  function DownTurn(r: Role): nat {
    match r case Api => 0 case Frontend => 1 case Stub => 2 case Worker => 3
  }

  function UpTurn(r: Role): nat {
    match r case Stub => 0 case Api => 1 case Worker => 2 case Frontend => 3
  }

  /** How far a command gets behind the block. */
  predicate Confined(p: Proc, b: Block) {
    match b
    case Source => (p.call.SaveSecrets? || p.call.CheckSource?) && p.memory.phase.SecretsReady?
    case Counts(r) => p.call.Enter? || p.call.SaveFenced? || (p.call.ScaleDown? && DownTurn(p.call.role) <= DownTurn(r))
    case Computing => p.call.SubmitCompute? || p.call.AwaitCompute?
    case Staging(r) =>
      || p.call.SubmitCompute? || p.call.AwaitCompute? || p.call.SaveComputed? || p.call.CheckDrained?
      || p.call == Stage(Api) || (p.call == Stage(Worker) && r == Worker)
    case Releasing => p.call.CheckDrained? || p.call.SubmitRelease? || p.call.AwaitRelease?
    case Starting(r) =>
      || p.call.SubmitRelease? || p.call.AwaitRelease? || p.call.SaveReleased?
      || (p.call.ScaleUp? && UpTurn(p.call.role) <= UpTurn(r))
    case Following(r) => p.call.SubmitRelease? || p.call.ScaleUp? || p.call.SaveRunning? || p.call.CheckRunning?
    case Followed => p.call.ScaleUp? || p.call.SaveRunning? || p.call.CheckRunning?
    case Ending(r) =>
      || (p.call.ScaleUp? && UpTurn(p.call.role) <= UpTurn(r))
      || (Verifying(p.call) && p.memory.probe && p.memory.document)
    case Finished => Verifying(p.call) && p.memory.phase.Verified?
  }

  predicate Verifying(call: Call) {
    call.CheckRunning? || call.NoteProbe? || call.NoteDocument? || call.SaveVerified?
  }

  predicate Behind(st: State, b: Block) { st.proc.Some? ==> Confined(st.proc.value, b) }

  lemma BeginStays(plan: Plan, st: State, command: Command, b: Block)
    requires Blocks(plan, st, b) && Enabled(plan, st, Begin(command))
    requires b.Staging? ==> b.role == Api || b.role == Worker
    ensures Blocks(plan, Next(plan, st, Begin(command)), b) && Behind(Next(plan, st, Begin(command)), b)
  {
    SameRoles(plan, st, Next(plan, st, Begin(command)));
    hide SameSource, CanStageNow, CountFits;
  }

  lemma SameRoles(plan: Plan, a: State, b: State)
    requires a.roles == b.roles
    ensures SameSource(plan, a) == SameSource(plan, b)
    ensures forall r :: CountFits(a, r) == CountFits(b, r)
    ensures forall r :: CanStageNow(plan, a, r) == CanStageNow(plan, b, r)
    ensures forall r: Role :: a.roles.Get(r) == b.roles.Get(r)
  {
    hide CredentialStage.StageCredential;
  }

  lemma WorldStays(plan: Plan, st: State, step: Step, b: Block)
    requires Blocks(plan, st, b) && Enabled(plan, st, step) && !step.Begin? && !step.Do?
    ensures Blocks(plan, Next(plan, st, step), b) && Next(plan, st, step).journal == st.journal
  {
    SameRoles(plan, st, Next(plan, st, step));
    hide SameSource, CanStageNow, CountFits;
  }

  /** A call leaves the block where it is, and gets no further than it. */
  lemma CallStays(plan: Plan, st: State, p: Proc, b: Block)
    requires Blocks(plan, st, b) && Confined(p, b) && Guard(plan, st, p)
    requires b.Staging? ==> b.role == Api || b.role == Worker
    ensures Blocks(plan, Effect(plan, st, p), b)
    ensures Rank(Effect(plan, st, p).journal.phase) >= Rank(st.journal.phase)
    ensures forall done :: After(p.call).Some? ==> Confined(Proc(After(p.call).value, Learned(plan, done, p)), b)
  {
    CallEffect(plan, st, p, b);
    CallAfter(plan, st, p, b);
    hide Blocks, Confined, Effect, Guard, After, Learned, Rank;
  }

  lemma CallEffect(plan: Plan, st: State, p: Proc, b: Block)
    requires Blocks(plan, st, b) && Confined(p, b) && Guard(plan, st, p)
    ensures Blocks(plan, Effect(plan, st, p), b)
    ensures Rank(Effect(plan, st, p).journal.phase) >= Rank(st.journal.phase)
  {
    if p.call.ScaleDown? || p.call.ScaleUp? || p.call.Stage? {
      RoleEffect(plan, st, p, b);
    } else {
      OtherEffect(plan, st, p, b);
    }
    hide Blocks, Confined, Effect, Guard, Rank;
  }

  lemma OtherEffect(plan: Plan, st: State, p: Proc, b: Block)
    requires Blocks(plan, st, b) && Confined(p, b) && Guard(plan, st, p)
    requires !p.call.ScaleDown? && !p.call.ScaleUp? && !p.call.Stage?
    ensures Blocks(plan, Effect(plan, st, p), b)
    ensures Rank(Effect(plan, st, p).journal.phase) >= Rank(st.journal.phase)
  {
    hide SameSource, CanStageNow, CountFits, StoppedRoles;
    SaveKeepsRoles(plan, st, p);
    SameRoles(plan, st, Effect(plan, st, p));
  }

  /** A call on a role before the blocked one leaves that one alone. */
  lemma RoleEffect(plan: Plan, st: State, p: Proc, b: Block)
    requires Blocks(plan, st, b) && Confined(p, b) && Guard(plan, st, p)
    requires p.call.ScaleDown? || p.call.ScaleUp? || p.call.Stage?
    ensures Blocks(plan, Effect(plan, st, p), b) && Effect(plan, st, p).journal == st.journal
  {
    hide CredentialStage.StageCredential;
  }

  lemma SaveKeepsRoles(plan: Plan, st: State, p: Proc)
    requires !p.call.ScaleDown? && !p.call.ScaleUp? && !p.call.Stage?
    ensures Effect(plan, st, p).roles == st.roles
  {}

  lemma CallAfter(plan: Plan, st: State, p: Proc, b: Block)
    requires Blocks(plan, st, b) && Confined(p, b) && Guard(plan, st, p)
    requires b.Staging? ==> b.role == Api || b.role == Worker
    ensures forall done :: After(p.call).Some? ==> Confined(Proc(After(p.call).value, Learned(plan, done, p)), b)
  {
    hide CredentialStage.StageCredential;
  }

  lemma DoStays(plan: Plan, st: State, step: Step, b: Block)
    requires Blocks(plan, st, b) && Behind(st, b) && Enabled(plan, st, step) && step.Do?
    requires b.Staging? ==> b.role == Api || b.role == Worker
    ensures var next := Next(plan, st, step);
      && Blocks(plan, next.(proc := None), b) && Behind(next, b)
      && Rank(next.journal.phase) >= Rank(st.journal.phase)
  {
    BlocksIgnoresProc(plan, st, st.(proc := None), b);
    if !step.outcome.FailsBefore? {
      CallStays(plan, st, st.proc.value, b);
      var done := Effect(plan, st, st.proc.value);
      BlocksIgnoresProc(plan, done, done.(proc := None), b);
    }
    hide Blocks, Confined, Effect, Guard, After, Learned, Rank;
  }

  lemma BlocksIgnoresProc(plan: Plan, a: State, b: State, block: Block)
    requires a.(proc := None) == b.(proc := None)
    ensures Blocks(plan, a, block) == Blocks(plan, b, block)
  {
    SameRoles(plan, a, b);
    hide SameSource, CanStageNow, CountFits;
  }

  // ---- Every overlap ----------------------------------------------------------------------------------------

  ghost predicate Stuck(plan: Plan, sys: System, b: Block) {
    && Blocks(plan, sys.world, b) && (b.Staging? ==> b.role == Api || b.role == Worker)
    && forall id :: id in sys.procs ==> Confined(sys.procs[id], b)
  }

  lemma StaysStuck(plan: Plan, sys: System, m: Move, b: Block)
    requires Stuck(plan, sys, b) && Allowed(plan, sys, m, false)
    ensures Stuck(plan, Moved(plan, sys, m), b)
    ensures Rank(Moved(plan, sys, m).world.journal.phase) >= Rank(sys.world.journal.phase)
  {
    hide Enabled, Next, Enters, Commits, Free, Blocks, Confined, Rank;
    var st := View(sys, m.id);
    BlocksIgnoresProc(plan, sys.world, st, b);
    StepStays(plan, st, m.step, b);
    var next := Next(plan, st, m.step);
    BlocksIgnoresProc(plan, next, next.(proc := None), b);
  }

  lemma StepStays(plan: Plan, st: State, step: Step, b: Block)
    requires Blocks(plan, st, b) && Behind(st, b) && Enabled(plan, st, step)
    requires b.Staging? ==> b.role == Api || b.role == Worker
    ensures var next := Next(plan, st, step);
      && Blocks(plan, next, b) && Behind(next, b) && Rank(next.journal.phase) >= Rank(st.journal.phase)
  {
    var next := Next(plan, st, step);
    if step.Begin? {
      BeginStays(plan, st, step.command, b);
      BeginKeepsJournal(plan, st, step);
    } else if step.Do? {
      DoStays(plan, st, step, b);
      BlocksIgnoresProc(plan, next, next.(proc := None), b);
    } else {
      WorldStays(plan, st, step, b);
      WorldKeepsProc(plan, st, step);
    }
    hide Enabled, Next, Blocks, Confined, Rank;
  }

  lemma BeginKeepsJournal(plan: Plan, st: State, step: Step)
    requires Enabled(plan, st, step) && step.Begin?
    ensures Next(plan, st, step).journal == st.journal
  {}

  lemma WorldKeepsProc(plan: Plan, st: State, step: Step)
    requires Enabled(plan, st, step) && !step.Begin? && !step.Do?
    ensures Next(plan, st, step).proc == st.proc
  {}

  lemma {:induction false} StuckForGood(plan: Plan, sys: System, moves: seq<Move>, end: System, b: Block)
    requires Stuck(plan, sys, b) && Moves(plan, sys, moves, end, false)
    ensures Stuck(plan, end, b) && Rank(end.world.journal.phase) >= Rank(sys.world.journal.phase)
    decreases |moves|
  {
    if moves != [] {
      StaysStuck(plan, sys, moves[0], b);
      hide Stuck, Allowed, Moved, Rank;
      StuckForGood(plan, Moved(plan, sys, moves[0]), moves[1..], end, b);
    }
  }

  lemma StuckCannotFall(plan: Plan, st: State, b: Block)
    requires Stuck(plan, System(st, map[]), b)
    ensures !CanFall(plan, st)
  {
    var sys := System(st, map[]);
    hide Stuck, Moves, Rank;
    forall mid, end | Reaches(plan, sys, mid) && Reaches(plan, mid, end)
      ensures Rank(end.world.journal.phase) >= Rank(mid.world.journal.phase)
    {
      var there :| Moves(plan, sys, there, mid, false);
      var on :| Moves(plan, mid, on, end, false);
      StuckForGood(plan, sys, there, mid, b);
      StuckForGood(plan, mid, on, end, b);
    }
  }

  /** What is missing for a fall stands in its way. */
  lemma MissingBlocks(plan: Plan, st: State) returns (b: Block)
    requires Inv(plan, st) && !MayFall(plan, st)
    ensures Stuck(plan, System(st, map[]), b)
  {
    if st.journal.phase.Running? && st.maintenance.op != Some(plan.op) { return Followed; }
    if st.journal.phase.Released? && st.maintenance.op != Some(plan.op) {
      var r: Role :| st.roles.Get(r).replicas != Some(0);
      return Following(r);
    }
    if !CountsFit(st) {
      var r: Role :| !CountFits(st, r);
      if st.journal.phase.FenceRequested? || st.journal.phase.Fenced? { return Counts(r); }
      if st.journal.phase.Released? { return Starting(r); }
      if st.journal.phase.Running? { return Ending(r); }
    }
    if st.journal.phase.SecretsReady? { return Source; }
    if st.journal.phase.Verified? { return Finished; }
    if st.journal.phase.Staged? { return Releasing; }
    if st.journal.phase.Held? && Failing(st.compute) { return Computing; }
    b := Staging(if plan.Target(Api).Ok? then Worker else Api);
    UnstageableStays(plan, st, b.role);
  }

  lemma UnstageableStays(plan: Plan, st: State, r: Role)
    requires Inv(plan, st) && st.journal.phase in {Held, Computed} && (r == Api || r == Worker)
    requires !plan.Target(r).Ok?
    ensures !CanStageNow(plan, st, r)
  {
    hide FenceFits, JobsFit, DataFits, ProcFits, CredentialStage.StageCredential;
    var c := st.roles.Get(r);
    assert c.At(0) == c by { assert c.replicas == Some(0); }
  }

  /** When overlapping commands can take the phase of an operation back, where nobody holds maintenance
      without a name: exactly while it may still go on. A verified operation is safe from them. */
  lemma FallsIff(plan: Plan, st: State)
    requires plan.Valid() && Inv(plan, st) && st.proc.None?
    requires st.maintenance.enabled ==> st.maintenance.op.Some?
    ensures CanFall(plan, st) <==> MayFall(plan, st)
  {
    hide Inv, CanFall, CountsFit, SameSource, Stuck;
    if !MayFall(plan, st) {
      var b := MissingBlocks(plan, st);
      StuckCannotFall(plan, st, b);
    } else {
      MayFallFalls(plan, st);
    }
  }

  lemma MayFallFalls(plan: Plan, st: State)
    requires plan.Valid() && Inv(plan, st) && st.proc.None? && MayFall(plan, st)
    requires st.maintenance.enabled ==> st.maintenance.op.Some?
    ensures CanFall(plan, st)
  {
    hide Inv, CanFall, CountsFit, SameSource, Stageable;
    match st.journal.phase
    case Prepared => FirstPhasesFall(plan, st);
    case Provisioned => FirstPhasesFall(plan, st);
    case RightsTested => FirstPhasesFall(plan, st);
    case SecretsReady => SecretsFall(plan, st);
    case FenceRequested => FenceFalls(plan, st);
    case Fenced => FenceFalls(plan, st);
    case Held => HeldFalls(plan, st);
    case Computed =>
      ComputeIsDone(plan, st);
      HeldFalls(plan, st);
    case Staged => StagedFalls(plan, st);
    case Released => if st.roles.AllStopped() { ReleaseFalls(plan, st); } else { StartFalls(plan, st); }
    case Running => if st.journal.probe && st.journal.document { StartFalls(plan, st); } else { NoteFalls(plan, st); }
    case Verified =>
  }
}
