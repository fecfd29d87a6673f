/** The credential transition as a journal of phases: commands given one after another, each of
    which may end before or after any effect, beside offline Jobs, writers, other maintenance
    operations and controllers that start and end Pods when they like. */
module Credentials {
  import opened Options
  import opened Results
  import opened Workload
  import CredentialStage

  datatype Phase = Prepared | Provisioned | RightsTested | SecretsReady | FenceRequested | Fenced
                 | Held | Computed | Staged | Released | Running | Verified

  function Rank(phase: Phase): nat {
    match phase
    case Prepared => 0 case Provisioned => 1 case RightsTested => 2 case SecretsReady => 3
    case FenceRequested => 4 case Fenced => 5 case Held => 6 case Computed => 7
    case Staged => 8 case Released => 9 case Running => 10 case Verified => 11
  }

  datatype Role = Api | Worker | Frontend | Stub

  function Count(role: Role): nat { if role.Stub? then 1 else 2 }

  /** One value for each role. */
  datatype Roles = Roles(api: Controller, worker: Controller, frontend: Controller, stub: Controller) {
    function Get(r: Role): Controller {
      match r case Api => api case Worker => worker case Frontend => frontend case Stub => stub
    }
    function With(r: Role, c: Controller): Roles {
      match r
      case Api => this.(api := c)
      case Worker => this.(worker := c)
      case Frontend => this.(frontend := c)
      case Stub => this.(stub := c)
    }
    predicate AllStopped() { forall r: Role :: Get(r).replicas == Some(0) }
  }

  /** What is decided when the operation is prepared. */
  datatype Plan = Plan(op: nat, original: Roles, switch: CredentialStage.Switch, oldIdentity: nat, newIdentity: nat) {
    predicate Valid() {
      && original.api.name == "api" && original.worker.name == "worker"
      && forall r: Role :: original.Get(r) == original.Get(r).Clean()
    }
    function Stopped(r: Role): Controller { original.Get(r).At(0) }
    /** The controller that staging makes of the stopped original. */
    function Target(r: Role): Result<Controller> {
      CredentialStage.StageCredential(Stopped(r), original.Get(r), switch)
    }
  }

  /** `probe` and `document` say that the last command has noted its probe and the document it made. */
  datatype Journal = Journal(phase: Phase, epoch: Option<nat>, corpus: Option<nat>,
                             identity: Option<nat>, receipt: Option<nat>, probe: bool, document: bool)

  /** The maintenance row: the last operation is remembered after it has left. */
  datatype Maintenance = Maintenance(enabled: bool, op: Option<nat>, epoch: nat)

  datatype Status = Active | Succeeded | Failed

  /** An offline Job: at which epoch its transaction has committed, if it has. */
  datatype Job = NoJob | Job(committed: Option<nat>, status: Status) {
    predicate Finished() { NoJob? || status.Succeeded? }
    predicate Committed() { Job? && committed.Some? }
    predicate Successful() { Job? && status.Succeeded? && committed.Some? }
  }

  datatype Pod = Pod(role: Role, spec: PodSpec)

  // ---- Commands ------------------------------------------------------------------------------------

  datatype Command = Provision | TestRights | MakeSecrets | Fence | Compute | StageRoles | Release | Start | Verify

  datatype Call =
    | NoteProvision | SaveProvisioned | SaveRights | SaveSecrets
    | CheckSource | SaveRequested | Enter | SaveFenced | ScaleDown(role: Role) | AwaitDrained
    | ReadCorpus | SaveHeld
    | SubmitCompute | AwaitCompute | SaveComputed
    | CheckDrained | Stage(role: Role) | SaveStaged
    | SubmitRelease | AwaitRelease | SaveReleased
    | ScaleUp(role: Role) | SaveRunning
    | CheckRunning | NoteProbe | NoteDocument | SaveVerified

  /** The first call of a command, when it accepts the phase. */
  function First(command: Command, phase: Phase): Option<Call> {
    match command
    case Provision => if phase.Prepared? || phase.Provisioned? then Some(NoteProvision) else None
    case TestRights => if phase.Provisioned? || phase.RightsTested? then Some(SaveRights) else None
    case MakeSecrets => if phase.RightsTested? || phase.SecretsReady? then Some(SaveSecrets) else None
    case Fence =>
      if phase.SecretsReady? then Some(CheckSource)
      else if phase.FenceRequested? || phase.Fenced? then Some(Enter) else None
    case Compute => if phase.Held? || phase.Computed? then Some(SubmitCompute) else None
    case StageRoles => if phase.Computed? || phase.Staged? then Some(CheckDrained) else None
    case Release => if phase.Staged? || phase.Released? then Some(SubmitRelease) else None
    case Start => if phase.Released? || phase.Running? then Some(ScaleUp(Stub)) else None
    case Verify => if phase.Running? || phase.Verified? then Some(CheckRunning) else None
  }

  /** The call that follows in the same command. */
  function After(call: Call): Option<Call> {
    match call
    case NoteProvision => Some(SaveProvisioned)
    case CheckSource => Some(SaveRequested)
    case SaveRequested => Some(Enter)
    case Enter => Some(SaveFenced)
    case SaveFenced => Some(ScaleDown(Api))
    case ScaleDown(Api) => Some(ScaleDown(Frontend))
    case ScaleDown(Frontend) => Some(ScaleDown(Stub))
    case ScaleDown(Stub) => Some(ScaleDown(Worker))
    case ScaleDown(Worker) => Some(AwaitDrained)
    case AwaitDrained => Some(ReadCorpus)
    case ReadCorpus => Some(SaveHeld)
    case SubmitCompute => Some(AwaitCompute)
    case AwaitCompute => Some(SaveComputed)
    case CheckDrained => Some(Stage(Api))
    case Stage(Api) => Some(Stage(Worker))
    case Stage(Worker) => Some(SaveStaged)
    case SubmitRelease => Some(AwaitRelease)
    case AwaitRelease => Some(SaveReleased)
    case ScaleUp(Stub) => Some(ScaleUp(Api))
    case ScaleUp(Api) => Some(ScaleUp(Worker))
    case ScaleUp(Worker) => Some(ScaleUp(Frontend))
    case ScaleUp(Frontend) => Some(SaveRunning)
    case CheckRunning => Some(NoteProbe)
    case NoteProbe => Some(NoteDocument)
    case NoteDocument => Some(SaveVerified)
    case _ => None
  }

  // ---- The world ------------------------------------------------------------------------------------

  /** A running command: its next call, and the journal as it has it in memory. */
  datatype Proc = Proc(call: Call, memory: Journal)

  datatype State = State(journal: Journal, proc: Option<Proc>, roles: Roles, pods: map<nat, Pod>,
                         maintenance: Maintenance, corpus: nat, identity: nat, compute: Job, release: Job)
  {
    predicate Drained() { pods == map[] && compute.Finished() && release.Finished() }
  }

  predicate Owned(plan: Plan, st: State) {
    st.maintenance.enabled && st.maintenance.op == Some(plan.op)
  }

  predicate SameUid(plan: Plan, roles: Roles, r: Role) { roles.Get(r).uid == plan.original.Get(r).uid }

  predicate Scalable(plan: Plan, st: State, r: Role) {
    && SameUid(plan, st.roles, r)
    && (st.roles.Get(r).replicas == Some(0) || st.roles.Get(r).replicas == Some(Count(r)))
  }

  predicate SameSource(plan: Plan, st: State) {
    forall r: Role :: SameUid(plan, st.roles, r) && st.roles.Get(r).SameSpec(plan.original.Get(r))
  }

  predicate StoppedRoles(plan: Plan, st: State) {
    st.roles.AllStopped() && forall r: Role :: SameUid(plan, st.roles, r)
  }

  /** When a call can have its effect. */
  predicate Guard(plan: Plan, st: State, p: Proc) {
    match p.call
    case CheckSource => st.identity == plan.oldIdentity && SameSource(plan, st)
    case Enter =>
      && st.identity == plan.oldIdentity
      && if st.maintenance.enabled then st.maintenance.op == Some(plan.op)
         else st.maintenance.op != Some(plan.op)
    case ScaleDown(r) => Scalable(plan, st, r)
    case AwaitDrained => st.Drained()
    case CheckDrained => st.Drained()
    case SubmitCompute =>
      && StoppedRoles(plan, st)
      && (if st.compute.NoJob? then st.Drained() else st.pods == map[] && st.release.Finished())
    case AwaitCompute => st.compute.Successful()
    case Stage(r) => CredentialStage.StageCredential(st.roles.Get(r), plan.original.Get(r), plan.switch).Ok?
    case SubmitRelease =>
      && StoppedRoles(plan, st)
      && (if st.release.NoJob? then st.Drained() else st.pods == map[] && st.compute.Finished())
    case AwaitRelease => st.release.Successful() && st.release.committed == p.memory.epoch
    case ScaleUp(r) => Scalable(plan, st, r)
    case SaveRunning => st.identity == plan.newIdentity
    case CheckRunning =>
      && st.identity == plan.newIdentity
      && st.maintenance == Maintenance(false, Some(plan.op), st.maintenance.epoch)
      && p.memory.epoch == Some(st.maintenance.epoch)
    case _ => true
  }

  /** What a call does outside the process. */
  function Effect(plan: Plan, st: State, p: Proc): State {
    match p.call
    case Enter =>
      if st.maintenance.enabled then st
      else st.(maintenance := Maintenance(true, Some(plan.op), st.maintenance.epoch + 1))
    case ScaleDown(r) => st.(roles := st.roles.With(r, st.roles.Get(r).At(0)))
    case ScaleUp(r) => st.(roles := st.roles.With(r, st.roles.Get(r).At(Count(r))))
    case SubmitCompute => if st.compute.NoJob? then st.(compute := Job(None, Active)) else st
    case SubmitRelease => if st.release.NoJob? then st.(release := Job(None, Active)) else st
    case Stage(r) =>
      var staged := CredentialStage.StageCredential(st.roles.Get(r), plan.original.Get(r), plan.switch);
      if staged.Ok? then st.(roles := st.roles.With(r, staged.value)) else st
    case NoteProvision => st.(journal := p.memory)
    case NoteProbe => if p.memory.probe then st else st.(journal := p.memory.(probe := true))
    case NoteDocument => if p.memory.document then st else st.(journal := p.memory.(document := true))
    case _ => if Saved(p.call).Some? then st.(journal := p.memory.(phase := Saved(p.call).value)) else st
  }

  /** The phase a save writes. */
  function Saved(call: Call): Option<Phase> {
    match call
    case SaveProvisioned => Some(Provisioned)
    case SaveRights => Some(RightsTested)
    case SaveSecrets => Some(SecretsReady)
    case SaveRequested => Some(FenceRequested)
    case SaveFenced => Some(Fenced)
    case SaveHeld => Some(Held)
    case SaveComputed => Some(Computed)
    case SaveStaged => Some(Staged)
    case SaveReleased => Some(Released)
    case SaveRunning => Some(Running)
    case SaveVerified => Some(Verified)
    case _ => None
  }

  /** What the process knows after the call, `done` being the world after it. */
  function Learned(plan: Plan, done: State, p: Proc): Journal {
    match p.call
    case Enter => p.memory.(epoch := Some(done.maintenance.epoch))
    case ReadCorpus => p.memory.(corpus := Some(done.corpus))
    case AwaitCompute => p.memory.(identity := Some(plan.newIdentity))
    case AwaitRelease => p.memory.(receipt := if done.release.Job? then done.release.committed else None)
    case NoteProbe => p.memory.(probe := true)
    case NoteDocument => p.memory.(document := true)
    case _ => if Saved(p.call).Some? then p.memory.(phase := Saved(p.call).value) else p.memory
  }

  // ---- Steps ---------------------------------------------------------------------------------------

  datatype Outcome = Completes | FailsBefore | FailsAfter

  datatype Step =
    | Begin(command: Command)
    | Do(outcome: Outcome)
    | ComputeCommits | ComputeEnds(good: bool)
    | ReleaseCommits | ReleaseEnds(good: bool)
    | PodStarts(id: nat, role: Role) | PodEnds(id: nat)
    | WriterCommits(corpus: nat)
    | OtherEnters(op: nat) | OtherLeaves | OtherChanges(corpus: nat, identity: nat)

  predicate Foreign(plan: Plan, st: State) {
    st.maintenance.enabled && st.maintenance.op.Some? && st.maintenance.op != Some(plan.op)
  }

  predicate Enabled(plan: Plan, st: State, step: Step) {
    match step
    case Begin(command) => st.proc.None? && First(command, st.journal.phase).Some?
    case Do(outcome) => st.proc.Some? && (!outcome.FailsBefore? ==> Guard(plan, st, st.proc.value))
    case ComputeCommits => st.compute.Job? && st.compute.status.Active? && !st.compute.Committed() && Owned(plan, st)
    case ComputeEnds(good) => st.compute.Job? && st.compute.status.Active? && (good ==> st.compute.Committed())
    case ReleaseCommits =>
      && st.release.Job? && st.release.status.Active? && !st.release.Committed() && Owned(plan, st)
      && st.identity == plan.newIdentity && st.journal.corpus == Some(st.corpus)
    case ReleaseEnds(good) => st.release.Job? && st.release.status.Active? && (good ==> st.release.Committed())
    case PodStarts(id, r) => id !in st.pods && st.roles.Get(r).replicas.Some? && st.roles.Get(r).replicas.value > 0
    case PodEnds(id) => id in st.pods
    case WriterCommits(_) => st.pods != map[] && !st.maintenance.enabled
    case OtherEnters(op) => op != plan.op && !st.maintenance.enabled && st.maintenance.op != Some(op)
    case OtherLeaves => Foreign(plan, st)
    case OtherChanges(_, _) => Foreign(plan, st)
  }

  function Next(plan: Plan, st: State, step: Step): State
    requires Enabled(plan, st, step)
  {
    match step
    case Begin(command) => st.(proc := Some(Proc(First(command, st.journal.phase).value, st.journal)))
    case Do(outcome) =>
      var p := st.proc.value;
      if outcome.FailsBefore? then st.(proc := None)
      else
        var done := Effect(plan, st, p);
        if outcome.FailsAfter? || After(p.call).None? then done.(proc := None)
        else done.(proc := Some(Proc(After(p.call).value, Learned(plan, done, p))))
    case ComputeCommits =>
      st.(compute := st.compute.(committed := Some(st.maintenance.epoch)), identity := plan.newIdentity)
    case ComputeEnds(good) => st.(compute := st.compute.(status := if good then Succeeded else Failed))
    case ReleaseCommits =>
      st.(release := st.release.(committed := Some(st.maintenance.epoch)),
          maintenance := st.maintenance.(enabled := false))
    case ReleaseEnds(good) => st.(release := st.release.(status := if good then Succeeded else Failed))
    case PodStarts(id, r) => st.(pods := st.pods[id := Pod(r, st.roles.Get(r).pod)])
    case PodEnds(id) => st.(pods := st.pods - {id})
    case WriterCommits(c) => st.(corpus := c)
    case OtherEnters(op) => st.(maintenance := Maintenance(true, Some(op), st.maintenance.epoch + 1))
    case OtherLeaves => st.(maintenance := st.maintenance.(enabled := false))
    case OtherChanges(c, i) => st.(corpus := c, identity := i)
  }

  // ---- The invariant -------------------------------------------------------------------------------

  predicate Unreleased(st: State) { !st.release.Committed() }

  /** The fence: taken between the request and its record, owned from the record to the release,
      and never taken twice. */
  predicate FenceFits(plan: Plan, st: State) {
    var n := Rank(st.journal.phase);
    && (n <= 3 ==> st.maintenance.op != Some(plan.op))
    && (n == 4 && st.maintenance.op == Some(plan.op) ==> st.maintenance.enabled)
    && (5 <= n <= 8 && Unreleased(st) ==> Owned(plan, st) && st.journal.epoch == Some(st.maintenance.epoch))
    && (n >= 5 ==> st.journal.epoch.Some?)
    && (Owned(plan, st) ==> Unreleased(st))
    && (Owned(plan, st) && !st.compute.Committed() ==> st.identity == plan.oldIdentity)
    && (st.release.Committed() && st.maintenance.op == Some(plan.op) ==>
          st.identity == plan.newIdentity && st.release.committed == Some(st.maintenance.epoch))
  }

  /** The two Jobs and their receipts. */
  predicate JobsFit(plan: Plan, st: State) {
    var n := Rank(st.journal.phase);
    && (st.compute.Job? ==> n >= 6) && (st.release.Job? ==> n >= 8)
    && (st.compute.Job? && st.compute.status.Succeeded? ==> st.compute.Committed())
    && (st.release.Job? && st.release.status.Succeeded? ==> st.release.Committed())
    && (n >= 7 ==> st.compute.Successful() && st.journal.identity == Some(plan.newIdentity))
    && (n >= 9 ==> st.release.Successful() && st.journal.receipt == st.journal.epoch)
    && (st.release.Committed() ==> st.release.committed == st.journal.epoch)
    && (st.compute.Committed() && Unreleased(st) ==> st.identity == plan.newIdentity)
  }

  predicate Settled(plan: Plan, c: Controller, r: Role) { c.At(0) == plan.Stopped(r) }

  predicate OnTarget(plan: Plan, c: Controller, r: Role) { Ok(c.At(0)) == plan.Target(r) }

  /** The controllers: originals at some count until the roles are staged, and staged from then on;
      none is up and no Pod is left from the drain to the release. */
  predicate RolesFit(plan: Plan, st: State) {
    var n := Rank(st.journal.phase);
    && (forall r: Role :: SameUid(plan, st.roles, r))
    && Settled(plan, st.roles.frontend, Frontend) && Settled(plan, st.roles.stub, Stub)
    && (n <= 6 ==> Settled(plan, st.roles.api, Api) && Settled(plan, st.roles.worker, Worker))
    && (n == 7 ==> Settled(plan, st.roles.api, Api) || OnTarget(plan, st.roles.api, Api))
    && (n == 7 ==> Settled(plan, st.roles.worker, Worker) || OnTarget(plan, st.roles.worker, Worker))
    && (n >= 8 ==> OnTarget(plan, st.roles.api, Api) && OnTarget(plan, st.roles.worker, Worker))
    && (6 <= n <= 8 ==> st.roles.AllStopped() && st.pods == map[])
    && (n >= 8 ==> forall id :: id in st.pods ==> PodFits(plan, st.pods[id]))
  }

  /** A Pod of a staged role runs the staged template. */
  predicate PodFits(plan: Plan, pod: Pod) {
    pod.role == Api || pod.role == Worker ==>
      plan.Target(pod.role).Ok? && pod.spec == plan.Target(pod.role).value.pod
  }

  /** What was read of the corpus while it was held is what it still is. */
  predicate DataFits(st: State) {
    6 <= Rank(st.journal.phase) <= 8 && Unreleased(st) ==> st.journal.corpus == Some(st.corpus)
  }

  predicate ProcFits(plan: Plan, st: State, p: Proc) {
    var j := st.journal;
    match p.call
    case NoteProvision => p.memory == j && Rank(j.phase) <= 1
    case SaveProvisioned => p.memory == j && Rank(j.phase) <= 1
    case SaveRights => p.memory == j && 1 <= Rank(j.phase) <= 2
    case SaveSecrets => p.memory == j && 2 <= Rank(j.phase) <= 3
    case CheckSource => p.memory == j && j.phase.SecretsReady?
    case SaveRequested => p.memory == j && j.phase.SecretsReady?
    case Enter => p.memory == j && 4 <= Rank(j.phase) <= 5
    case SaveFenced =>
      && 4 <= Rank(j.phase) <= 5 && Owned(plan, st) && p.memory == j.(epoch := Some(st.maintenance.epoch))
    case ScaleDown(r) =>
      && p.memory == j && j.phase.Fenced?
      && (!r.Api? ==> st.roles.api.replicas == Some(0))
      && (r.Stub? || r.Worker? ==> st.roles.frontend.replicas == Some(0))
      && (r.Worker? ==> st.roles.stub.replicas == Some(0))
    case AwaitDrained => p.memory == j && j.phase.Fenced? && st.roles.AllStopped()
    case ReadCorpus => p.memory == j && j.phase.Fenced? && st.roles.AllStopped() && st.pods == map[]
    case SaveHeld =>
      && j.phase.Fenced? && st.roles.AllStopped() && st.pods == map[]
      && p.memory == j.(corpus := Some(st.corpus))
    case SubmitCompute => p.memory == j && 6 <= Rank(j.phase) <= 7
    case AwaitCompute => p.memory == j && 6 <= Rank(j.phase) <= 7
    case SaveComputed =>
      && 6 <= Rank(j.phase) <= 7 && st.compute.Successful()
      && p.memory == j.(identity := Some(plan.newIdentity))
    case CheckDrained => p.memory == j && 7 <= Rank(j.phase) <= 8
    case Stage(r) =>
      && p.memory == j && 7 <= Rank(j.phase) <= 8 && (r == Api || r == Worker)
      && (r == Worker ==> OnTarget(plan, st.roles.api, Api))
    case SaveStaged =>
      && p.memory == j && 7 <= Rank(j.phase) <= 8
      && OnTarget(plan, st.roles.api, Api) && OnTarget(plan, st.roles.worker, Worker)
    case SubmitRelease => p.memory == j && 8 <= Rank(j.phase) <= 9
    case AwaitRelease => p.memory == j && 8 <= Rank(j.phase) <= 9
    case SaveReleased =>
      && 8 <= Rank(j.phase) <= 9 && st.release.Successful() && p.memory == j.(receipt := j.epoch)
    case ScaleUp(_) => p.memory == j && 9 <= Rank(j.phase) <= 10
    case SaveRunning => p.memory == j && 9 <= Rank(j.phase) <= 10
    case CheckRunning => p.memory == j && 10 <= Rank(j.phase) <= 11
    case NoteProbe => p.memory == j && 10 <= Rank(j.phase) <= 11
    case NoteDocument => p.memory == j && 10 <= Rank(j.phase) <= 11
    case SaveVerified => p.memory == j && 10 <= Rank(j.phase) <= 11
  }

  predicate Inv(plan: Plan, st: State) {
    && FenceFits(plan, st) && JobsFit(plan, st) && RolesFit(plan, st) && DataFits(st)
    && (st.proc.Some? ==> ProcFits(plan, st, st.proc.value))
  }

  /** A prepared operation: nothing of it has happened, and the roles are as they were recorded. */
  predicate Init(plan: Plan, st: State) {
    && plan.Valid() && st.journal == Journal(Prepared, None, None, None, None, false, false) && st.proc.None?
    && st.roles == plan.original && st.maintenance.op != Some(plan.op)
    && st.compute.NoJob? && st.release.NoJob?
  }

  lemma InitInv(plan: Plan, st: State)
    requires Init(plan, st)
    ensures Inv(plan, st)
  {}
}
