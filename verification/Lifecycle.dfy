/** Maintenance operations on one cluster: any number of managers and recoveries, each call of
    which may fail before or after its effect, beside controllers that start and end Pods when
    they like. */
module Lifecycle {
  import opened Options

  datatype Role = App | Front

  type Counts = map<Role, nat>

  /** The calls a manager makes, in the order its operation makes them. */
  datatype Call =
    | Acquire                    // create the lock, which fails when one exists
    | Record                     // read the replica counts of the Deployments that exist
    | CheckLock                  // the lock is this operation's
    | PatchLock                  // note the counts on the lock
    | ScaleDown(role: Role)
    | AwaitStopped               // no application or frontend Pod is left
    | CreateJob
    | DeleteJob
    | AwaitJobGone               // no Pod of this operation's Job is left
    | ChartOff                   // neither Deployment is rendered
    | ChartOn(target: Counts)
    | ScaleUp(role: Role)        // to the recorded count
    | DeleteLock                 // by name, whoever holds it

  // ---- The operations ------------------------------------------------------------------------

  function Stop(): seq<Call> {
    [Record, CheckLock, PatchLock, ScaleDown(Front), ScaleDown(App), AwaitStopped]
  }

  function RunJob(): seq<Call> { [CreateJob, DeleteJob, AwaitJobGone] }

  function Release(): seq<Call> { [CheckLock, DeleteLock] }

  function Resume(): seq<Call> { [CheckLock, ScaleUp(App), ScaleUp(Front)] }

  function Backup(): seq<Call> { [Acquire] + Stop() + RunJob() + Resume() + Release() }

  /** `installed`: there is an application to back up; `rollback`: a validated binary rollback
      holds the audit outbox in a third Job. */
  function Deploy(installed: bool, rollback: bool, target: Counts): seq<Call> {
    [Acquire] + Stop() + (if installed then RunJob() else []) + [ChartOff] + RunJob()
    + (if rollback then RunJob() else []) + [ChartOn(target)] + Release()
  }

  function MigrateArtifacts(): seq<Call> { [Acquire] + Stop() + RunJob() + Release() }

  function Provision(): seq<Call> { [Acquire, ChartOff] + Release() }

  // ---- The discipline they share -----------------------------------------------------------------

  datatype Phase = Free | Held | Recorded | FrontDown | BothDown
                 | Stopped(cleared: bool) | Working(cleared: bool) | Deleted(cleared: bool)
                 | Resuming | HalfUp | Restored | Opened | Checked(restored: bool) | Done

  /** The phase after a call, when the call is allowed in the phase. */
  function Advance(phase: Phase, call: Call): Option<Phase> {
    match (phase, call)
    case (Free, Acquire) => Some(Held)
    case (Held, Record) => Some(Recorded)
    case (Held, ChartOff) => Some(Held)
    case (Held, CheckLock) => Some(Checked(false))
    case (Recorded, CheckLock) => Some(Recorded)
    case (Recorded, PatchLock) => Some(Recorded)
    case (Recorded, ScaleDown(Front)) => Some(FrontDown)
    case (FrontDown, ScaleDown(App)) => Some(BothDown)
    case (BothDown, AwaitStopped) => Some(Stopped(false))
    case (Stopped(c), CreateJob) => Some(Working(c))
    case (Working(c), DeleteJob) => Some(Deleted(c))
    case (Deleted(c), AwaitJobGone) => Some(Stopped(c))
    case (Stopped(_), ChartOff) => Some(Stopped(true))
    case (Stopped(_), ChartOn(_)) => Some(Opened)
    case (Stopped(c), CheckLock) => if c then Some(Checked(false)) else Some(Resuming)
    case (Resuming, DeleteLock) => Some(Done)
    case (Resuming, ScaleUp(App)) => Some(HalfUp)
    case (HalfUp, ScaleUp(Front)) => Some(Restored)
    case (Opened, CheckLock) => Some(Checked(false))
    case (Restored, CheckLock) => Some(Checked(true))
    case (Checked(_), DeleteLock) => Some(Done)
    case _ => None
  }

  predicate Disciplined(phase: Phase, script: seq<Call>)
    decreases |script|
  {
    if script == [] then phase.Done?
    else Advance(phase, script[0]).Some? && Disciplined(Advance(phase, script[0]).value, script[1..])
  }

  // ---- The cluster ---------------------------------------------------------------------------------

  /** An operation's Job: whether the object exists, whether it is finished, and whether a Pod of
      it is running. */
  datatype Job = Job(present: bool, terminal: bool, live: bool) {
    predicate Busy() { (present && !terminal) || live }
  }

  const NO_JOB := Job(false, false, false)

  datatype Lock = Lock(op: nat, counts: Option<Counts>)

  /** A manager: the calls it has `made` and its phase after them, the calls still to make, and
      the counts it recorded. */
  datatype Proc = Proc(made: seq<Call>, phase: Phase, script: seq<Call>, counts: Counts)

  /** A recovery of `target`, after `stage` of its calls: lock read, no application Pods, Jobs
      finished, no operation Pods, lock read again. */
  datatype Recovery = Recovery(target: nat, stage: nat)

  datatype State = State(lock: Option<Lock>, desired: Counts, pods: map<Role, nat>,
                         jobs: map<nat, Job>, procs: map<nat, Proc>,
                         recoveries: map<nat, Recovery>, used: set<nat>)
  {
    function Pods(r: Role): nat { if r in pods then pods[r] else 0 }
    function JobOf(op: nat): Job { if op in jobs then jobs[op] else NO_JOB }
    ghost predicate Owns(op: nat) { lock.Some? && lock.value.op == op }
    ghost predicate Quiet() {
      && Pods(App) == 0 && Pods(Front) == 0
      && forall r :: r in desired ==> desired[r] == 0
    }
    ghost predicate Idle() { forall op :: !JobOf(op).Busy() }
    /** An operation Pod beside an application or frontend Pod. */
    ghost predicate Coexist() {
      (Pods(App) > 0 || Pods(Front) > 0) && exists op :: JobOf(op).live
    }
  }

  function SetRole(m: Counts, r: Role, n: nat): Counts { if r in m then m[r := n] else m }

  function Zeroed(m: Counts): Counts { map r | r in m :: 0 }

  /** When a call can have its effect. */
  ghost predicate Guard(st: State, op: nat, p: Proc, call: Call) {
    match call
    case Acquire => st.lock.None?
    case Record => App in st.desired ==> st.desired[App] <= 1
    case CheckLock => st.Owns(op)
    case PatchLock => st.lock.Some?
    case ScaleDown(r) => r in p.counts ==> r in st.desired
    case ScaleUp(r) => (r in p.counts ==> r in st.desired) && (App in p.counts ==> p.counts[App] <= 1)
    case AwaitStopped => st.Pods(App) == 0 && st.Pods(Front) == 0
    case CreateJob => !st.JobOf(op).present
    case DeleteJob => st.JobOf(op).present
    case AwaitJobGone => !st.JobOf(op).live
    case ChartOff => true
    case ChartOn(_) => true
    case DeleteLock => st.lock.Some?
  }

  ghost function Effect(st: State, op: nat, p: Proc, call: Call): State {
    match call
    case Acquire => st.(lock := Some(Lock(op, None)))
    case PatchLock =>
      if st.lock.Some? then st.(lock := Some(st.lock.value.(counts := Some(p.counts)))) else st
    case ScaleDown(r) => if r in p.counts then st.(desired := st.desired[r := 0]) else st
    case ScaleUp(r) => if r in p.counts then st.(desired := st.desired[r := p.counts[r]]) else st
    case CreateJob => st.(jobs := st.jobs[op := Job(true, false, st.JobOf(op).live)])
    case DeleteJob => st.(jobs := st.jobs[op := st.JobOf(op).(present := false)])
    case ChartOff => st.(desired := map[])
    case ChartOn(target) => st.(desired := target)
    case DeleteLock => st.(lock := None)
    case _ => st
  }

  // ---- Steps ---------------------------------------------------------------------------------------

  /** A call completes, or its process ends before or after the call's effect. */
  datatype Outcome = Completes | FailsBefore | FailsAfter

  datatype Step =
    | StartManager(op: nat, script: seq<Call>)
    | CallStep(op: nat, outcome: Outcome)
    | StartRecovery(id: nat, target: nat)
    | RecoveryStep(id: nat, outcome: Outcome)
    | PodStarts(role: Role)
    | PodEnds(role: Role)
    | JobPodStarts(op: nat)
    | JobPodEnds(op: nat, finished: bool)
    | JobFinishes(op: nat)

  ghost predicate RecoveryGuard(st: State, r: Recovery) {
    match r.stage
    case 0 => st.Owns(r.target)
    case 1 => st.Pods(App) == 0 && st.Pods(Front) == 0
    case 2 => forall op :: !(st.JobOf(op).present && !st.JobOf(op).terminal)
    case 3 => forall op :: !st.JobOf(op).live
    case 4 => st.Owns(r.target)
    case _ => st.lock.Some?
  }

  ghost predicate Enabled(st: State, step: Step) {
    match step
    case StartManager(op, script) => op !in st.used && Disciplined(Free, script)
    case CallStep(op, outcome) =>
      && op in st.procs && st.procs[op].script != []
      && (!outcome.FailsBefore? ==> Guard(st, op, st.procs[op], st.procs[op].script[0]))
    case StartRecovery(id, target) => id !in st.recoveries && target in st.used
    case RecoveryStep(id, outcome) =>
      && id in st.recoveries
      && (!outcome.FailsBefore? ==> RecoveryGuard(st, st.recoveries[id]))
    case PodStarts(r) => r in st.desired && st.Pods(r) < st.desired[r]
    case PodEnds(r) => st.Pods(r) > 0
    case JobPodStarts(op) => st.JobOf(op).present && !st.JobOf(op).terminal
    case JobPodEnds(op, _) => st.JobOf(op).live
    case JobFinishes(op) => st.JobOf(op).present
  }

  /** Recovery used as documented: on an operation whose process is gone, and not while another
      recovery of the same operation is still alive. */
  ghost predicate Careful(st: State, step: Step) {
    step.StartRecovery? ==>
      && step.target !in st.procs
      && forall id :: id in st.recoveries ==> st.recoveries[id].target != step.target
  }

  ghost function AfterCall(st: State, op: nat): State
    requires op in st.procs && st.procs[op].script != []
  {
    var p := st.procs[op];
    var call := p.script[0];
    var done := Effect(st, op, p, call);
    if |p.script| == 1 || Advance(p.phase, call).None? then done.(procs := done.procs - {op})
    else done.(procs := done.procs[op := Moved(st, p)])
  }

  /** A manager after its next call. */
  ghost function Moved(st: State, p: Proc): Proc
    requires p.script != [] && Advance(p.phase, p.script[0]).Some?
  {
    var call := p.script[0];
    Proc(p.made + [call], Advance(p.phase, call).value, p.script[1..],
         if call.Record? then st.desired else p.counts)
  }

  ghost function Next(st: State, step: Step): State
    requires Enabled(st, step)
  {
    match step
    case StartManager(op, script) =>
      st.(procs := st.procs[op := Proc([], Free, script, map[])], used := st.used + {op})
    case CallStep(op, outcome) =>
      (match outcome
       case Completes => AfterCall(st, op)
       case FailsBefore => st.(procs := st.procs - {op})
       case FailsAfter =>
         var done := Effect(st, op, st.procs[op], st.procs[op].script[0]);
         done.(procs := done.procs - {op}))
    case StartRecovery(id, target) =>
      st.(recoveries := st.recoveries[id := Recovery(target, 0)])
    case RecoveryStep(id, outcome) =>
      var r := st.recoveries[id];
      var lock := if r.stage >= 5 && !outcome.FailsBefore? then None else st.lock;
      st.(lock := lock,
          recoveries := if outcome.Completes? && r.stage < 5
                        then st.recoveries[id := r.(stage := r.stage + 1)]
                        else st.recoveries - {id})
    case PodStarts(r) => st.(pods := st.pods[r := st.Pods(r) + 1])
    case PodEnds(r) => st.(pods := st.pods[r := st.Pods(r) - 1])
    case JobPodStarts(op) => st.(jobs := st.jobs[op := st.JobOf(op).(live := true)])
    case JobPodEnds(op, finished) =>
      st.(jobs := st.jobs[op := st.JobOf(op).(live := false, terminal := st.JobOf(op).terminal || finished)])
    case JobFinishes(op) => st.(jobs := st.jobs[op := st.JobOf(op).(terminal := true)])
  }

  // ---- The invariant ---------------------------------------------------------------------------------

  ghost predicate PhaseFits(st: State, p: Proc) {
    match p.phase
    case Recorded => st.desired == p.counts
    case FrontDown => st.desired == SetRole(p.counts, Front, 0)
    case BothDown => st.desired == Zeroed(p.counts)
    case Stopped(c) => st.Quiet() && (!c ==> st.desired == Zeroed(p.counts))
    case Working(c) => st.Quiet() && (!c ==> st.desired == Zeroed(p.counts))
    case Deleted(c) => st.Quiet() && (!c ==> st.desired == Zeroed(p.counts))
    case Resuming => st.Quiet() && st.desired == Zeroed(p.counts)
    case HalfUp => st.desired == SetRole(p.counts, Front, 0)
    case Restored => st.desired == p.counts
    case Checked(restored) => restored ==> st.desired == p.counts
    case _ => true
  }

  ghost predicate ProcFits(st: State, op: nat, p: Proc) {
    && op in st.used && p.script != []
    && Disciplined(p.phase, p.script) && Through(Free, p.made) == Some(p.phase)
    && (!p.phase.Free? ==> st.Owns(op))
    && PhaseFits(st, p)
    && (st.JobOf(op).Busy() ==> p.phase.Working? || p.phase.Deleted?)
    && (st.JobOf(op).present ==> p.phase.Working?)
  }

  /** A Job that may still run belongs to the lock's owner, and nothing else is up. */
  ghost predicate JobFits(st: State, op: nat) {
    && (st.JobOf(op).Busy() ==> st.Owns(op) && st.Quiet())
    && (op in st.jobs ==> op in st.used)
  }

  ghost predicate RecoveryFits(st: State, r: Recovery) {
    && r.target in st.used && r.target !in st.procs && r.stage <= 5
    && (r.stage >= 1 ==> st.Owns(r.target))
    && (r.stage >= 3 ==> forall op :: !(st.JobOf(op).present && !st.JobOf(op).terminal))
    && (r.stage >= 4 ==> forall op :: !st.JobOf(op).live)
  }

  ghost predicate Inv(st: State) {
    && (forall op :: op in st.procs ==> ProcFits(st, op, st.procs[op]))
    && (forall op :: JobFits(st, op))
    && (forall id :: id in st.recoveries ==> RecoveryFits(st, st.recoveries[id]))
    && (forall i, j :: i in st.recoveries && j in st.recoveries && i != j ==>
          st.recoveries[i].target != st.recoveries[j].target)
  }

  /** Before any operation: whatever runs, no lock, no Job and no process. */
  ghost predicate Init(st: State) {
    st.lock == None && st.jobs == map[] && st.procs == map[] && st.recoveries == map[] && st.used == {}
  }

  lemma InitInv(st: State)
    requires Init(st)
    ensures Inv(st)
  {}

  /** The phase after some calls, when each is allowed. */
  function Through(phase: Phase, calls: seq<Call>): Option<Phase>
    decreases |calls|
  {
    if calls == [] then Some(phase)
    else if Advance(phase, calls[0]).None? then None
    else Through(Advance(phase, calls[0]).value, calls[1..])
  }

  lemma {:induction false} DisciplineJoins(phase: Phase, a: seq<Call>, b: seq<Call>)
    requires Through(phase, a).Some?
    ensures Disciplined(phase, a + b) == Disciplined(Through(phase, a).value, b)
    decreases |a|
  {
    hide Advance;
    if a == [] {
      assert a + b == b;
    } else {
      assert (a + b)[0] == a[0] && (a + b)[1..] == a[1..] + b;
      DisciplineJoins(Advance(phase, a[0]).value, a[1..], b);
    }
  }

  lemma OneCall(phase: Phase, call: Call)
    ensures Through(phase, [call]) == Advance(phase, call)
  {
    assert [call][1..] == [];
  }

  lemma TwoCalls(phase: Phase, a: Call, b: Call)
    requires Advance(phase, a).Some?
    ensures Through(phase, [a, b]) == Advance(Advance(phase, a).value, b)
  {
    hide Advance;
    assert [a, b][1..] == [b];
    OneCall(Advance(phase, a).value, b);
  }

  lemma ThreeCalls(phase: Phase, a: Call, b: Call, c: Call)
    requires Advance(phase, a).Some? && Advance(Advance(phase, a).value, b).Some?
    ensures Through(phase, [a, b, c]) == Advance(Advance(Advance(phase, a).value, b).value, c)
  {
    hide Advance;
    assert [a, b, c][1..] == [b, c];
    TwoCalls(Advance(phase, a).value, b, c);
  }

  lemma {:induction false} ThroughJoins(phase: Phase, a: seq<Call>, b: seq<Call>)
    requires Through(phase, a).Some?
    ensures Through(phase, a + b) == Through(Through(phase, a).value, b)
    decreases |a|
  {
    hide Advance;
    if a == [] {
      assert a + b == b;
    } else {
      assert (a + b)[0] == a[0] && (a + b)[1..] == a[1..] + b;
      ThroughJoins(Advance(phase, a[0]).value, a[1..], b);
    }
  }

  lemma StopThrough()
    ensures Through(Held, Stop()) == Some(Stopped(false))
  {
    ThreeCalls(Held, Record, CheckLock, PatchLock);
    ThreeCalls(Recorded, ScaleDown(Front), ScaleDown(App), AwaitStopped);
    var a, b := [Record, CheckLock, PatchLock], [ScaleDown(Front), ScaleDown(App), AwaitStopped];
    assert Stop() == a + b;
    ThroughJoins(Held, a, b);
  }

  lemma JobThrough(cleared: bool)
    ensures Through(Stopped(cleared), RunJob()) == Some(Stopped(cleared))
  {
    ThreeCalls(Stopped(cleared), CreateJob, DeleteJob, AwaitJobGone);
  }

  lemma ReleaseEnds(phase: Phase)
    requires Advance(phase, CheckLock).Some?
    requires Advance(Advance(phase, CheckLock).value, DeleteLock) == Some(Done)
    ensures Disciplined(phase, Release())
  {
    TwoCalls(phase, CheckLock, DeleteLock);
    DisciplineJoins(phase, Release(), []);
    assert Release() + [] == Release();
  }

  /** Every operation starts by taking the lock and stopping the application. */
  lemma AcquireThenStop(rest: seq<Call>)
    ensures Disciplined(Free, [Acquire] + Stop() + rest) == Disciplined(Stopped(false), rest)
  {
    OneCall(Free, Acquire);
    StopThrough();
    ThroughJoins(Free, [Acquire], Stop());
    DisciplineJoins(Free, [Acquire] + Stop(), rest);
  }

  lemma Associate(a: seq<Call>, b: seq<Call>, c: seq<Call>)
    ensures a + b + c == a + (b + c)
  {}

  lemma ResumeThrough()
    ensures Through(Stopped(false), Resume()) == Some(Restored)
  {
    ThreeCalls(Stopped(false), CheckLock, ScaleUp(App), ScaleUp(Front));
  }

  lemma BackupIsDisciplined()
    ensures Disciplined(Free, Backup())
  {
    hide Disciplined, Through, Stop, RunJob, Resume, Release;
    JobThrough(false);
    ResumeThrough();
    ReleaseEnds(Restored);
    DisciplineJoins(Stopped(false), Resume(), Release());
    DisciplineJoins(Stopped(false), RunJob(), Resume() + Release());
    AcquireThenStop(RunJob() + (Resume() + Release()));
    Associate([Acquire] + Stop(), RunJob(), Resume());
    Associate([Acquire] + Stop(), RunJob() + Resume(), Release());
    Associate(RunJob(), Resume(), Release());
  }

  lemma DeployIsDisciplined(installed: bool, rollback: bool, target: Counts)
    ensures Disciplined(Free, Deploy(installed, rollback, target))
  {
    hide Disciplined, Through, Stop, RunJob, Release;
    ReleaseEnds(Opened);
    OneCall(Stopped(true), ChartOn(target));
    OneCall(Stopped(false), ChartOff);
    MaybeJobThrough(false, installed);
    MaybeJobThrough(true, rollback);
    JobThrough(true);
    var first := if installed then RunJob() else [];
    var last := if rollback then RunJob() else [];
    var tail := [ChartOn(target)] + Release();
    DisciplineJoins(Stopped(true), [ChartOn(target)], Release());
    DisciplineJoins(Stopped(true), last, tail);
    DisciplineJoins(Stopped(true), RunJob(), last + tail);
    DisciplineJoins(Stopped(false), [ChartOff], RunJob() + (last + tail));
    DisciplineJoins(Stopped(false), first, [ChartOff] + (RunJob() + (last + tail)));
    AcquireThenStop(first + ([ChartOff] + (RunJob() + (last + tail))));
    DeployAssociates([Acquire] + Stop(), first, [ChartOff], RunJob(), last, [ChartOn(target)], Release());
  }

  lemma DeployAssociates(a: seq<Call>, b: seq<Call>, c: seq<Call>, d: seq<Call>, e: seq<Call>,
                         f: seq<Call>, g: seq<Call>)
    ensures a + b + c + d + e + f + g == a + (b + (c + (d + (e + (f + g)))))
  {
    Associate(a + b + c + d + e, f, g);
    Associate(a + b + c + d, e, f + g);
    Associate(a + b + c, d, e + (f + g));
    Associate(a + b, c, d + (e + (f + g)));
    Associate(a, b, c + (d + (e + (f + g))));
  }

  lemma MaybeJobThrough(cleared: bool, runs: bool)
    ensures Through(Stopped(cleared), if runs then RunJob() else []) == Some(Stopped(cleared))
  {
    JobThrough(cleared);
  }

  lemma MigrateIsDisciplined()
    ensures Disciplined(Free, MigrateArtifacts())
  {
    hide Disciplined, Through, Stop, RunJob, Release;
    JobThrough(false);
    ReleaseEnds(Stopped(false));
    DisciplineJoins(Stopped(false), RunJob(), Release());
    AcquireThenStop(RunJob() + Release());
    Associate([Acquire] + Stop(), RunJob(), Release());
  }

  /** The operations the tool offers all keep the discipline. */
  lemma OperationsAreDisciplined(installed: bool, rollback: bool, target: Counts)
    ensures Disciplined(Free, Backup())
    ensures Disciplined(Free, Deploy(installed, rollback, target))
    ensures Disciplined(Free, MigrateArtifacts())
    ensures Disciplined(Free, Provision())
  {
    BackupIsDisciplined();
    DeployIsDisciplined(installed, rollback, target);
    MigrateIsDisciplined();
    ProvisionIsDisciplined();
    hide Disciplined, Backup, Deploy, MigrateArtifacts, Provision;
  }

  lemma ProvisionIsDisciplined()
    ensures Disciplined(Free, Provision())
  {
    hide Disciplined, Through, Release;
    TwoCalls(Free, Acquire, ChartOff);
    ReleaseEnds(Held);
    DisciplineJoins(Free, [Acquire, ChartOff], Release());
  }

  /** What the invariant is for. */
  lemma InvIsSafe(st: State)
    requires Inv(st)
    ensures !st.Coexist()
    ensures forall a :: a in st.procs && !st.procs[a].phase.Free? ==> st.Owns(a)
    ensures forall a, b :: (a in st.procs && b in st.procs
              && !st.procs[a].phase.Free? && !st.procs[b].phase.Free?) ==> a == b
  {
    forall op | st.JobOf(op).live ensures st.Pods(App) == 0 && st.Pods(Front) == 0 {
      assert JobFits(st, op);
    }
    forall a | a in st.procs && !st.procs[a].phase.Free? ensures st.Owns(a) {
      assert ProcFits(st, a, st.procs[a]);
    }
  }
}
