/** Why recovery needs care: runs in which the documented use of `recover-lock` is broken, by two
    recoveries of one crashed operation or by recovering an operation that is still alive; each ends
    with an operation Pod beside an application Pod. */
module LifecycleMisuse {
  import opened Options
  import opened Lifecycle
  import opened LifecycleSafety

  lemma {:induction false} RunsJoin(a: State, s: seq<Step>, b: State, t: seq<Step>, c: State)
    requires Runs(a, s, b, false) && Runs(b, t, c, false)
    ensures Runs(a, s + t, c, false)
    decreases |s|
  {
    hide Enabled, Next, Careful;
    if s == [] {
      assert s + t == t;
    } else {
      assert (s + t)[0] == s[0] && (s + t)[1..] == s[1..] + t;
      RunsJoin(Next(a, s[0]), s[1..], b, t, c);
    }
  }

  lemma RunsOne(a: State, step: Step, b: State)
    requires Enabled(a, step) && b == Next(a, step)
    ensures Runs(a, [step], b, false)
  {
    hide Enabled, Next, Careful;
    assert [step][1..] == [];
    assert Runs(b, [], b, false);
  }

  lemma RunsMore(a: State, s: seq<Step>, b: State, step: Step, c: State)
    requires Runs(a, s, b, false) && Enabled(b, step) && c == Next(b, step)
    ensures Runs(a, s + [step], c, false)
  {
    hide Enabled, Next, Careful, Runs;
    RunsOne(b, step, c);
    RunsJoin(a, s, b, [step], c);
  }

  /** A manager's next call, when it is not its last. */
  lemma CallRuns(a: State, s: seq<Step>, b: State, op: nat, call: Call, rest: seq<Call>)
      returns (t: seq<Step>, c: State)
    requires Runs(a, s, b, false) && op in b.procs
    requires b.procs[op].script == [call] + rest && rest != []
    requires Guard(b, op, b.procs[op], call) && Advance(b.procs[op].phase, call).Some?
    ensures Runs(a, t, c, false)
    ensures var p := b.procs[op];
      c == Effect(b, op, p, call).(procs := b.procs[op :=
             Proc(p.made + [call], Advance(p.phase, call).value, rest,
                  if call.Record? then b.desired else p.counts)])
  {
    hide Runs, Guard, Advance;
    var step := CallStep(op, Completes);
    EffectFrame(b, op, b.procs[op], call);
    assert ([call] + rest)[1..] == rest;
    c := Next(b, step);
    RunsMore(a, s, b, step, c);
    t := s + [step];
  }

  /** No application or frontend Pod is left; what is wanted may be up. */
  ghost predicate Calm(st: State) { st.Pods(App) == 0 && st.Pods(Front) == 0 }

  /** What a stop demands of the application before it records the counts. */
  ghost predicate Single(st: State) { App in st.desired ==> st.desired[App] <= 1 }

  /** The cluster differs at most in the lock, in what is wanted and in one manager. */
  ghost predicate Beside(b: State, c: State, op: nat) {
    && c == b.(lock := c.lock, desired := c.desired, procs := c.procs, used := c.used)
    && c.procs - {op} == b.procs - {op}
  }

  /** `op` has the lock of a calm cluster, in `phase` and with `script` to come. */
  ghost predicate Stopping(c: State, op: nat, phase: Phase, script: seq<Call>) {
    && Calm(c) && Single(c) && c.Owns(op) && op in c.procs && op in c.used
    && c.procs[op].phase == phase && c.procs[op].script == script && PhaseFits(c, c.procs[op])
  }

  /** One call of a stop. */
  lemma StopCall(a: State, s: seq<Step>, b: State, op: nat, phase: Phase, call: Call, rest: seq<Call>)
      returns (t: seq<Step>, c: State)
    requires Runs(a, s, b, false) && Stopping(b, op, phase, [call] + rest) && rest != []
    requires call in Stop() && Advance(phase, call).Some?
    ensures Runs(a, t, c, false)
    ensures Stopping(c, op, Advance(phase, call).value, rest)
    ensures Beside(b, c, op) && c.used == b.used
  {
    hide Runs;
    StopGuard(b, op, phase, call, rest);
    StopEffect(b, op, phase, call, rest);
    hide Guard, Advance, Stopping;
    t, c := CallRuns(a, s, b, op, call, rest);
    hide Effect, Stop;
  }

  lemma StopGuard(b: State, op: nat, phase: Phase, call: Call, rest: seq<Call>)
    requires Stopping(b, op, phase, [call] + rest) && call in Stop() && Advance(phase, call).Some?
    ensures Guard(b, op, b.procs[op], call)
  {}

  /** The cluster and the manager after a call of a stop. */
  ghost function AfterStop(b: State, op: nat, call: Call, rest: seq<Call>): State
    requires op in b.procs && Advance(b.procs[op].phase, call).Some?
  {
    var p := b.procs[op];
    Effect(b, op, p, call).(procs := b.procs[op :=
      Proc(p.made + [call], Advance(p.phase, call).value, rest, if call.Record? then b.desired else p.counts)])
  }

  lemma StopEffect(b: State, op: nat, phase: Phase, call: Call, rest: seq<Call>)
    requires Stopping(b, op, phase, [call] + rest) && call in Stop() && Advance(phase, call).Some?
    ensures var c := AfterStop(b, op, call, rest);
      Stopping(c, op, Advance(phase, call).value, rest) && Beside(b, c, op) && c.used == b.used
  {
    StopGuard(b, op, phase, call, rest);
    var p := b.procs[op];
    var c := AfterStop(b, op, call, rest);
    AdvancedCluster(b, op, p, call);
    StopCluster(b, op, p, call);
    hide Guard, Advance;
    FitsAlike(Effect(b, op, p, call), c,
              Proc(p.made, Advance(phase, call).value, p.script, if call.Record? then b.desired else p.counts), c.procs[op]);
    hide PhaseFits, Effect;
  }

  lemma StopCluster(b: State, op: nat, p: Proc, call: Call)
    requires Calm(b) && Single(b) && b.Owns(op) && call in Stop()
    ensures var done := Effect(b, op, p, call);
      && done == b.(lock := done.lock, desired := done.desired) && done.Owns(op) && Single(done) && Calm(done)
  {}

  lemma FitsAlike(a: State, b: State, p: Proc, q: Proc)
    requires a.desired == b.desired && a.pods == b.pods && p.phase == q.phase && p.counts == q.counts
    ensures PhaseFits(a, p) == PhaseFits(b, q)
  {}

  lemma BesideJoins(a: State, b: State, c: State, op: nat)
    requires Beside(a, b, op) && Beside(b, c, op)
    ensures Beside(a, c, op)
  {}

  /** From an unlocked calm cluster a new manager takes the lock and stops. */
  lemma ManagerStops(a: State, s: seq<Step>, b: State, op: nat, rest: seq<Call>)
      returns (t: seq<Step>, c: State)
    requires Runs(a, s, b, false) && Calm(b) && Single(b) && b.lock.None? && op !in b.used
    requires rest != [] && Disciplined(Free, [Acquire] + Stop() + rest)
    ensures Runs(a, t, c, false)
    ensures Stopping(c, op, Stopped(false), rest) && Beside(b, c, op) && c.used == b.used + {op}
  {
    var last := [AwaitStopped] + rest;
    var five := [ScaleDown(App)] + last;
    var four := [ScaleDown(Front)] + five;
    var three := [PatchLock] + four;
    var two := [CheckLock] + three;
    StopUnrolls(rest);
    StopAdvances();
    hide Runs, Disciplined, Stopping, Beside, Advance, Stop, Calm, Single;
    t, c := ManagerStarts(a, s, b, op, [Record] + two);
    t, c := StopMore(a, b, t, c, op, Held, Record, two);
    t, c := StopMore(a, b, t, c, op, Recorded, CheckLock, three);
    t, c := StopMore(a, b, t, c, op, Recorded, PatchLock, four);
    t, c := StopMore(a, b, t, c, op, Recorded, ScaleDown(Front), five);
    t, c := StopMore(a, b, t, c, op, FrontDown, ScaleDown(App), last);
    t, c := StopMore(a, b, t, c, op, BothDown, AwaitStopped, rest);
  }

  lemma StopUnrolls(rest: seq<Call>)
    ensures [Acquire] + Stop() + rest
         == [Acquire] + ([Record] + ([CheckLock] + ([PatchLock]
            + ([ScaleDown(Front)] + ([ScaleDown(App)] + ([AwaitStopped] + rest))))))
  {}

  lemma StopAdvances()
    ensures Advance(Held, Record) == Some(Recorded) && Record in Stop()
    ensures Advance(Recorded, CheckLock) == Some(Recorded) && CheckLock in Stop()
    ensures Advance(Recorded, PatchLock) == Some(Recorded) && PatchLock in Stop()
    ensures Advance(Recorded, ScaleDown(Front)) == Some(FrontDown) && ScaleDown(Front) in Stop()
    ensures Advance(FrontDown, ScaleDown(App)) == Some(BothDown) && ScaleDown(App) in Stop()
    ensures Advance(BothDown, AwaitStopped) == Some(Stopped(false)) && AwaitStopped in Stop()
  {}

  lemma StopMore(a: State, o: State, s: seq<Step>, b: State, op: nat, phase: Phase, call: Call,
                 rest: seq<Call>) returns (t: seq<Step>, c: State)
    requires Runs(a, s, b, false) && Stopping(b, op, phase, [call] + rest) && rest != []
    requires call in Stop() && Advance(phase, call).Some? && Beside(o, b, op)
    ensures Runs(a, t, c, false)
    ensures Stopping(c, op, Advance(phase, call).value, rest)
    ensures Beside(o, c, op) && c.used == b.used
  {
    hide Runs, Stopping, Beside, Advance;
    t, c := StopCall(a, s, b, op, phase, call, rest);
    BesideJoins(o, b, c, op);
  }

  lemma ManagerStarts(a: State, s: seq<Step>, b: State, op: nat, script: seq<Call>)
      returns (t: seq<Step>, c: State)
    requires Runs(a, s, b, false) && Calm(b) && Single(b) && b.lock.None? && op !in b.used
    requires script != [] && Disciplined(Free, [Acquire] + script)
    ensures Runs(a, t, c, false)
    ensures Stopping(c, op, Held, script) && Beside(b, c, op) && c.used == b.used + {op}
  {
    hide Runs, Disciplined;
    var start := StartManager(op, [Acquire] + script);
    c := Next(b, start);
    RunsMore(a, s, b, start, c);
    t, c := CallRuns(a, s + [start], c, op, Acquire, script);
  }

  /** A recovery of the lock's owner gets as far as its last call. */
  lemma RecoveryReaches(a: State, s: seq<Step>, b: State, id: nat, target: nat)
      returns (t: seq<Step>, c: State)
    requires Runs(a, s, b, false) && Calm(b) && b.Idle()
    requires b.Owns(target) && target in b.used && id !in b.recoveries
    ensures Runs(a, t, c, false) && Calm(c) && c.Idle()
    ensures c == b.(recoveries := b.recoveries[id := Recovery(target, 5)])
  {
    hide Runs;
    var start := StartRecovery(id, target);
    c := Next(b, start);
    RunsMore(a, s, b, start, c);
    StillIdle(b, c);
    hide State.Idle, Calm;
    t := s + [start];
    t, c := RecoveryMoves(a, t, c, id, target, 0);
    t, c := RecoveryMoves(a, t, c, id, target, 1);
    t, c := RecoveryMoves(a, t, c, id, target, 2);
    t, c := RecoveryMoves(a, t, c, id, target, 3);
    t, c := RecoveryMoves(a, t, c, id, target, 4);
  }

  lemma RecoveryMoves(a: State, s: seq<Step>, b: State, id: nat, target: nat, stage: nat)
      returns (t: seq<Step>, c: State)
    requires Runs(a, s, b, false) && Calm(b) && b.Idle() && b.Owns(target) && stage < 5
    requires id in b.recoveries && b.recoveries[id] == Recovery(target, stage)
    ensures Runs(a, t, c, false) && Calm(c) && c.Idle()
    ensures c == b.(recoveries := b.recoveries[id := Recovery(target, stage + 1)])
  {
    hide Runs;
    var step := RecoveryStep(id, Completes);
    c := Next(b, step);
    RunsMore(a, s, b, step, c);
    StillIdle(b, c);
    t := s + [step];
  }

  lemma StillIdle(b: State, c: State)
    requires c.jobs == b.jobs && b.Idle()
    ensures c.Idle()
  {
    forall op ensures !c.JobOf(op).Busy() { assert c.JobOf(op) == b.JobOf(op); }
  }

  /** From a stopped cluster a deployment installs the application, and its Pod comes up. */
  lemma DeployBringsUp(a: State, s: seq<Step>, b: State, op: nat)
      returns (t: seq<Step>, c: State)
    requires Runs(a, s, b, false) && Calm(b) && op in b.procs && op !in b.jobs
    requires b.procs[op].phase == Stopped(false)
    requires b.procs[op].script == [ChartOff] + RunJob() + [ChartOn(map[App := 1])] + Release()
    ensures Runs(a, t, c, false)
    ensures c.Pods(App) == 1 && forall o :: o != op ==> c.JobOf(o) == b.JobOf(o)
  {
    var up := [ChartOn(map[App := 1])] + Release();
    assert b.procs[op].script == [ChartOff] + (RunJob() + up);
    hide Runs;
    t, c := CallRuns(a, s, b, op, ChartOff, RunJob() + up);
    hide Effect;
    t, c := JobPasses(a, t, c, op, up);
    t, c := ChartComesUp(a, t, c, op, Release());
  }

  lemma JobPasses(a: State, s: seq<Step>, b: State, op: nat, rest: seq<Call>)
      returns (t: seq<Step>, c: State)
    requires Runs(a, s, b, false) && op in b.procs && op !in b.jobs && rest != []
    requires b.procs[op].phase == Stopped(true) && b.procs[op].script == RunJob() + rest
    ensures Runs(a, t, c, false)
    ensures op in c.procs && c.procs[op].phase == Stopped(true) && c.procs[op].script == rest
    ensures c.pods == b.pods && forall o :: o != op ==> c.JobOf(o) == b.JobOf(o)
  {
    hide Runs;
    var gone := [AwaitJobGone] + rest;
    var deleted := [DeleteJob] + gone;
    assert RunJob() + rest == [CreateJob] + deleted;
    t, c := CallRuns(a, s, b, op, CreateJob, deleted);
    t, c := CallRuns(a, t, c, op, DeleteJob, gone);
    t, c := CallRuns(a, t, c, op, AwaitJobGone, rest);
  }

  lemma ChartComesUp(a: State, s: seq<Step>, b: State, op: nat, rest: seq<Call>)
      returns (t: seq<Step>, c: State)
    requires Runs(a, s, b, false) && op in b.procs && rest != [] && b.Pods(App) == 0
    requires b.procs[op].phase.Stopped? && b.procs[op].script == [ChartOn(map[App := 1])] + rest
    ensures Runs(a, t, c, false)
    ensures c.Pods(App) == 1 && forall o :: c.JobOf(o) == b.JobOf(o)
  {
    hide Runs;
    t, c := CallRuns(a, s, b, op, ChartOn(map[App := 1]), rest);
    var step := PodStarts(App);
    var d := Next(c, step);
    RunsMore(a, t, c, step, d);
    t, c := t + [step], d;
  }

  /** From a stopped manager to a running operation Pod. */
  lemma JobComesUp(a: State, s: seq<Step>, b: State, op: nat, rest: seq<Call>)
      returns (t: seq<Step>, c: State)
    requires Runs(a, s, b, false) && op in b.procs && op !in b.jobs && rest != []
    requires b.procs[op].phase == Stopped(false) && b.procs[op].script == [CreateJob] + rest
    ensures Runs(a, t, c, false)
    ensures op in c.procs && c == b.(jobs := c.jobs, procs := b.procs[op := c.procs[op]])
    ensures c.JobOf(op).live && forall o :: o != op ==> (o in c.jobs <==> o in b.jobs)
  {
    hide Runs;
    t, c := CallRuns(a, s, b, op, CreateJob, rest);
    var step := JobPodStarts(op);
    var d := Next(c, step);
    RunsMore(a, t, c, step, d);
    t, c := t + [step], d;
  }

  lemma DeployScript()
    ensures Deploy(false, false, map[App := 1])
         == [Acquire] + Stop() + ([ChartOff] + RunJob() + [ChartOn(map[App := 1])] + Release())
    ensures MigrateArtifacts() == [Acquire] + Stop() + ([CreateJob] + ([DeleteJob, AwaitJobGone] + Release()))
  {}

  /** An unlocked calm cluster with a live operation Pod in it: the next deployment starts the
      application beside it. */
  lemma DeployBeside(a: State, s: seq<Step>, b: State, op: nat, other: nat)
      returns (t: seq<Step>, c: State)
    requires Runs(a, s, b, false) && Calm(b) && Single(b) && b.lock.None? && op !in b.used && op !in b.jobs
    requires other != op && b.JobOf(other).live
    ensures Runs(a, t, c, false) && c.Coexist()
  {
    hide Runs;
    DeployScript();
    DeployIsDisciplined(false, false, map[App := 1]);
    var rest := [ChartOff] + RunJob() + [ChartOn(map[App := 1])] + Release();
    hide Disciplined, Deploy;
    t, c := ManagerStops(a, s, b, op, rest);
    t, c := DeployBringsUp(a, t, c, op);
    assert c.JobOf(other).live;
  }

  const FRESH := State(None, map[], map[], map[], map[], map[], {})

  /** An operation takes the lock and dies. */
  lemma OperationDies() returns (t: seq<Step>, c: State)
    ensures Runs(FRESH, t, c, false)
    ensures c == FRESH.(lock := Some(Lock(1, None)), used := {1})
  {
    ProvisionIsDisciplined();
    var start := StartManager(1, Provision());
    c := Next(FRESH, start);
    RunsOne(FRESH, start, c);
    hide Runs, Disciplined;
    assert Provision() == [Acquire] + ([ChartOff] + Release());
    t, c := CallRuns(FRESH, [start], c, 1, Acquire, [ChartOff] + Release());
    var step := CallStep(1, FailsBefore);
    var d := Next(c, step);
    RunsMore(FRESH, t, c, step, d);
    t, c := t + [step], d;
  }

  /** Some number above all of a set. */
  lemma {:induction false} Unused(s: set<nat>) returns (n: nat)
    ensures forall m :: m in s ==> m < n
    decreases |s|
  {
    n := 0;
    if s != {} {
      var m :| m in s;
      n := Unused(s - {m});
      assert forall x :: x in s ==> x == m || x in s - {m};
      if n <= m { n := m + 1; }
    }
  }

  /** The Pods of a role end. */
  lemma {:induction false} PodsGo(a: State, s: seq<Step>, b: State, r: Role) returns (t: seq<Step>, c: State)
    requires Runs(a, s, b, false)
    ensures Runs(a, t, c, false) && c == b.(pods := c.pods) && c.Pods(r) == 0
    ensures forall q :: q != r ==> c.Pods(q) == b.Pods(q)
    decreases b.Pods(r)
  {
    t, c := s, b;
    if b.Pods(r) > 0 {
      var step := PodEnds(r);
      var d := Next(b, step);
      RunsMore(a, s, b, step, d);
      hide Runs;
      t, c := PodsGo(a, s + [step], d, r);
    }
  }

  lemma CalmsDown(a: State, s: seq<Step>, b: State) returns (t: seq<Step>, c: State)
    requires Runs(a, s, b, false)
    ensures Runs(a, t, c, false) && c == b.(pods := c.pods) && Calm(c)
  {
    hide Runs;
    t, c := PodsGo(a, s, b, App);
    t, c := PodsGo(a, t, c, Front);
  }

  /** From an unlocked calm cluster a migration gets to its running Job. */
  lemma MigrationComesUp(a: State, s: seq<Step>, b: State, op: nat) returns (t: seq<Step>, c: State)
    requires Runs(a, s, b, false) && Calm(b) && Single(b) && b.lock.None? && op !in b.used && op !in b.jobs
    ensures Runs(a, t, c, false) && c.JobOf(op).live && Calm(c) && Single(c)
    ensures c.lock.Some? && c.recoveries == b.recoveries && c.used == b.used + {op}
    ensures forall o :: o != op ==> (o in c.jobs <==> o in b.jobs)
  {
    hide Runs;
    DeployScript();
    MigrateIsDisciplined();
    var rest := [DeleteJob, AwaitJobGone] + Release();
    hide Disciplined, MigrateArtifacts;
    t, c := ManagerStops(a, s, b, op, [CreateJob] + rest);
    t, c := JobComesUp(a, t, c, op, rest);
  }

  /** Two recoveries of one operation get to their last call, and the first makes it. */
  lemma TwoReach(a: State, s: seq<Step>, b: State, id: nat, target: nat) returns (t: seq<Step>, c: State)
    requires Runs(a, s, b, false) && Calm(b) && b.Idle() && b.Owns(target) && target in b.used
    requires id !in b.recoveries && id + 1 !in b.recoveries
    ensures Runs(a, t, c, false)
    ensures c == b.(lock := None, recoveries := c.recoveries)
    ensures id + 1 in c.recoveries && c.recoveries[id + 1] == Recovery(target, 5)
  {
    hide Runs, State.Idle, Calm;
    t, c := RecoveryReaches(a, s, b, id, target);
    t, c := RecoveryReaches(a, t, c, id + 1, target);
    var first := RecoveryStep(id, Completes);
    var d := Next(c, first);
    RunsMore(a, t, c, first, d);
    t, c := t + [first], d;
  }

  /** Two recoveries of the lock's owner overlap: the second deletes, by name, the lock a later manager
      has taken meanwhile. Every run to a locked cluster in which no Job may run can go on like this,
      whatever is up in it, as long as the next operation can stop the application. */
  lemma TwoRecoveriesBreakSafety(a: State, s: seq<Step>, b: State, dead: nat) returns (t: seq<Step>, c: State)
    requires Runs(a, s, b, false) && b.Idle() && Single(b) && b.Owns(dead) && dead in b.used
    ensures Runs(a, t, c, false) && c.Coexist()
  {
    hide Runs;
    var id := Unused(b.recoveries.Keys);
    var op := Unused(b.used + b.jobs.Keys);
    t, c := CalmsDown(a, s, b);
    StillIdle(b, c);
    t, c := TwoReach(a, t, c, id, dead);
    hide State.Idle, Single, Calm;
    t, c := MigrationComesUp(a, t, c, op);
    var second := RecoveryStep(id + 1, Completes);
    var d := Next(c, second);
    RunsMore(a, t, c, second, d);
    t, c := t + [second], d;
    t, c := DeployBeside(a, t, c, op + 1, op);
  }

  /** Recovering an operation that is still alive, between its stop and its Job, hands its lock to the
      next manager. Every run to a cluster without a lock can go on like this, under the same terms. */
  lemma RecoveringALiveOperationBreaksSafety(a: State, s: seq<Step>, b: State) returns (t: seq<Step>, c: State)
    requires Runs(a, s, b, false) && b.Idle() && Single(b) && b.lock.None?
    ensures Runs(a, t, c, false) && c.Coexist()
  {
    hide Runs, State.Idle;
    var op := Unused(b.used + b.jobs.Keys);
    t, c := CalmsDown(a, s, b);
    StillIdle(b, c);
    var rest := [DeleteJob, AwaitJobGone] + Release();
    t, c := LiveRecovered(a, t, c, op, rest);
    t, c := JobComesUp(a, t, c, op, rest);
    t, c := DeployBeside(a, t, c, op + 1, op);
  }

  /** A migration stops the application, and its lock is taken from it. */
  lemma LiveRecovered(a: State, s: seq<Step>, b: State, op: nat, rest: seq<Call>) returns (t: seq<Step>, c: State)
    requires Runs(a, s, b, false) && Calm(b) && b.Idle() && Single(b) && b.lock.None? && op !in b.used
    requires rest == [DeleteJob, AwaitJobGone] + Release()
    ensures Runs(a, t, c, false) && Calm(c) && Single(c) && c.lock.None?
    ensures op in c.procs && c.procs[op].phase == Stopped(false) && c.procs[op].script == [CreateJob] + rest
    ensures c.jobs == b.jobs && c.used == b.used + {op}
  {
    hide Runs, State.Idle;
    var id := Unused(b.recoveries.Keys);
    DeployScript();
    MigrateIsDisciplined();
    hide Disciplined, MigrateArtifacts;
    t, c := ManagerStops(a, s, b, op, [CreateJob] + rest);
    StillIdle(b, c);
    t, c := RecoveryReaches(a, t, c, id, op);
    var last := RecoveryStep(id, Completes);
    var d := Next(c, last);
    RunsMore(a, t, c, last, d);
    t, c := t + [last], d;
  }

  /** Both happen to a fresh installation, the first after an operation that dies. */
  lemma MisuseIsReachable() returns (two: State, live: State)
    ensures Init(FRESH) && two.Coexist() && live.Coexist()
    ensures exists t :: Runs(FRESH, t, two, false)
    ensures exists t :: Runs(FRESH, t, live, false)
  {
    var t, c := OperationDies();
    assert Runs(FRESH, [], FRESH, false);
    hide Runs, State.Coexist;
    t, two := TwoRecoveriesBreakSafety(FRESH, t, c, 1);
    t, live := RecoveringALiveOperationBreaksSafety(FRESH, [], FRESH);
  }
}
