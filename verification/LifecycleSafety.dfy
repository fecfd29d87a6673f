/** No operation Pod ever coexists with an application or frontend Pod, over every run in which
    recovery is used with care. */
module LifecycleSafety {
  import opened Options
  import opened Lifecycle

  // ---- The lock's owner is alone -------------------------------------------------------------

  /** A process past its first call owns the lock, so every other process is still before it,
      no recovery has confirmed its target, and nobody else's Job may run. */
  lemma OwnerIsAlone(st: State, op: nat)
    requires Inv(st) && op in st.procs && !st.procs[op].phase.Free?
    ensures st.Owns(op) && st.lock.Some?
    ensures forall q :: q in st.procs && q != op ==> st.procs[q].phase.Free?
    ensures forall id :: id in st.recoveries ==> st.recoveries[id].stage == 0
    ensures forall o :: st.JobOf(o).Busy() ==> o == op
  {
    hide PhaseFits, Disciplined, Through;
    assert ProcFits(st, op, st.procs[op]);
    forall q | q in st.procs && q != op ensures st.procs[q].phase.Free? {
      assert ProcFits(st, q, st.procs[q]);
    }
    forall id | id in st.recoveries ensures st.recoveries[id].stage == 0 {
      assert RecoveryFits(st, st.recoveries[id]);
    }
    forall o | st.JobOf(o).Busy() ensures o == op {
      assert JobFits(st, o);
    }
  }

  /** Without a lock nobody is past the first call, and nothing may run. */
  lemma UnlockedIsIdle(st: State)
    requires Inv(st) && st.lock.None?
    ensures st.Idle()
    ensures forall q :: q in st.procs ==> st.procs[q].phase.Free?
    ensures forall id :: id in st.recoveries ==> st.recoveries[id].stage == 0
  {
    hide PhaseFits, Disciplined, Through;
    forall q | q in st.procs ensures st.procs[q].phase.Free? {
      assert ProcFits(st, q, st.procs[q]);
    }
    forall id | id in st.recoveries ensures st.recoveries[id].stage == 0 {
      assert RecoveryFits(st, st.recoveries[id]);
    }
    forall o ensures !st.JobOf(o).Busy() {
      assert JobFits(st, o);
    }
  }

  lemma FreeFits(st: State, next: State, q: nat)
    requires q in st.procs && ProcFits(st, q, st.procs[q]) && st.procs[q].phase.Free?
    requires next.used >= st.used && next.JobOf(q) == st.JobOf(q)
    ensures ProcFits(next, q, st.procs[q])
  {
    hide Disciplined, Through;
  }

  lemma RecoveryFrame(st: State, next: State, r: Recovery)
    requires RecoveryFits(st, r)
    requires next.lock == st.lock && next.used >= st.used && r.target !in next.procs
    requires forall o :: next.JobOf(o).present && !next.JobOf(o).terminal ==>
               st.JobOf(o).present && !st.JobOf(o).terminal
    requires forall o :: next.JobOf(o).live ==>
               st.JobOf(o).live || (st.JobOf(o).present && !st.JobOf(o).terminal)
    ensures RecoveryFits(next, r)
  {}

  lemma SameJobs(st: State, next: State)
    requires next.jobs == st.jobs
    ensures forall o :: next.JobOf(o) == st.JobOf(o)
  {}

  // ---- Processes come and go -------------------------------------------------------------------

  lemma StartInv(st: State, step: Step)
    requires Inv(st) && step.StartManager? && Enabled(st, step)
    ensures Inv(Next(st, step))
  {
    var next := Next(st, step);
    assert step.script != [];
    forall op | op in next.procs ensures ProcFits(next, op, next.procs[op]) {
      if op == step.op {
        assert JobFits(st, op);
      } else {
        assert ProcFits(st, op, st.procs[op]);
      }
    }
    hide PhaseFits, Disciplined, Through;
    forall op ensures JobFits(next, op) { assert JobFits(st, op); }
    forall id | id in next.recoveries ensures RecoveryFits(next, next.recoveries[id]) {
      assert RecoveryFits(st, st.recoveries[id]);
      SameJobs(st, next);
      RecoveryFrame(st, next, st.recoveries[id]);
    }
  }

  lemma LeaveInv(st: State, op: nat)
    requires Inv(st)
    ensures Inv(st.(procs := st.procs - {op}))
  {
    var next := st.(procs := st.procs - {op});
    forall q | q in next.procs ensures ProcFits(next, q, next.procs[q]) {
      assert ProcFits(st, q, st.procs[q]);
    }
    hide PhaseFits, Disciplined, Through;
    forall o ensures JobFits(next, o) { assert JobFits(st, o); }
    forall id | id in next.recoveries ensures RecoveryFits(next, next.recoveries[id]) {
      assert RecoveryFits(st, st.recoveries[id]);
      SameJobs(st, next);
      RecoveryFrame(st, next, st.recoveries[id]);
    }
  }

  lemma JoinInv(st: State, op: nat, p: Proc)
    requires Inv(st) && op !in st.procs && ProcFits(st, op, p)
    requires forall id :: id in st.recoveries ==> st.recoveries[id].target != op
    ensures Inv(st.(procs := st.procs[op := p]))
  {
    var next := st.(procs := st.procs[op := p]);
    hide ProcFits;
    forall q | q in next.procs ensures ProcFits(next, q, next.procs[q]) {
      SameFit(st, next, q, next.procs[q]);
    }
    forall o ensures JobFits(next, o) { assert JobFits(st, o); }
    forall id | id in next.recoveries ensures RecoveryFits(next, next.recoveries[id]) {
      assert RecoveryFits(st, st.recoveries[id]);
      SameJobs(st, next);
      RecoveryFrame(st, next, st.recoveries[id]);
    }
  }

  lemma SameFit(st: State, next: State, q: nat, p: Proc)
    requires next == st.(procs := next.procs)
    ensures ProcFits(next, q, p) == ProcFits(st, q, p)
  {
    SameJobs(st, next);
    hide Disciplined, Through;
  }

  // ---- A call's effect ---------------------------------------------------------------------------

  /** The state once a call has had its effect and its process is out of the picture. */
  ghost function Left(st: State, op: nat): State
    requires op in st.procs && st.procs[op].script != []
  {
    var done := Effect(st, op, st.procs[op], st.procs[op].script[0]);
    done.(procs := done.procs - {op})
  }

  lemma EffectFrame(st: State, op: nat, p: Proc, call: Call)
    ensures var done := Effect(st, op, p, call);
      && done.procs == st.procs && done.recoveries == st.recoveries && done.used == st.used
      && done.pods == st.pods && forall o :: o != op ==> done.JobOf(o) == st.JobOf(o)
  {}

  lemma CallsByPhase(phase: Phase, call: Call)
    requires Advance(phase, call).Some?
    ensures phase.Free? <==> call.Acquire?
    ensures phase.Working? || phase.Deleted? ==> call.DeleteJob? || call.AwaitJobGone?
    ensures call.CreateJob? ==> phase.Stopped?
  {}

  lemma LeftJobs(st: State, op: nat)
    requires Inv(st) && op in st.procs && st.procs[op].script != []
    requires Guard(st, op, st.procs[op], st.procs[op].script[0])
    ensures forall o :: JobFits(Left(st, op), o)
  {
    var p := st.procs[op];
    var call := p.script[0];
    assert ProcFits(st, op, p);
    CallsByPhase(p.phase, call);
    if p.phase.Free? {
      UnlockedIsIdle(st);
    } else {
      OwnerIsAlone(st, op);
    }
    assert call.CreateJob? ==> st.Quiet();
    hide Disciplined, Through, Advance, PhaseFits, Guard;
    EffectJobs(st, op, p, call);
    hide Effect;
    forall o ensures JobFits(Left(st, op), o) {
      assert JobFits(Effect(st, op, p, call), o);
    }
  }

  /** The only call that makes a Job able to run is made in a quiet cluster by the lock's owner,
      and while a Job may run its owner touches nothing but that Job. */
  lemma EffectJobs(st: State, op: nat, p: Proc, call: Call)
    requires forall o :: JobFits(st, o)
    requires forall o :: st.JobOf(o).Busy() ==> o == op
    requires st.JobOf(op).Busy() ==> call.DeleteJob? || call.AwaitJobGone?
    requires call.CreateJob? ==> st.Quiet() && st.Owns(op)
    requires op in st.used
    ensures forall o :: JobFits(Effect(st, op, p, call), o)
  {
    var next := Effect(st, op, p, call);
    forall o ensures JobFits(next, o) {
      assert JobFits(st, o);
      if o == op && !call.CreateJob? {
        assert next.JobOf(op).Busy() ==> st.JobOf(op).Busy();
      }
    }
  }

  lemma LeftInv(st: State, op: nat)
    requires Inv(st) && op in st.procs && st.procs[op].script != []
    requires Guard(st, op, st.procs[op], st.procs[op].script[0])
    ensures Inv(Left(st, op))
  {
    var p := st.procs[op];
    var next := Left(st, op);
    assert ProcFits(st, op, p);
    LeftJobs(st, op);
    EffectFrame(st, op, p, p.script[0]);
    if p.phase.Free? {
      assert p.script[0].Acquire?;
      UnlockedIsIdle(st);
    } else {
      OwnerIsAlone(st, op);
    }
    hide Effect, PhaseFits, Disciplined, Through, Guard;
    forall q | q in next.procs ensures ProcFits(next, q, next.procs[q]) {
      assert ProcFits(st, q, st.procs[q]);
      FreeFits(st, next, q);
    }
    forall id | id in next.recoveries ensures RecoveryFits(next, next.recoveries[id]) {
      assert RecoveryFits(st, st.recoveries[id]);
    }
  }

  /** The process itself, one phase on, still fits. */
  lemma AdvancedFits(st: State, op: nat)
    requires Inv(st) && op in st.procs && |st.procs[op].script| > 1
    requires Guard(st, op, st.procs[op], st.procs[op].script[0])
    ensures var p := st.procs[op];
      var call := p.script[0];
      && Advance(p.phase, call).Some?
      && ProcFits(Left(st, op), op, Moved(st, p))
  {
    var p := st.procs[op];
    var call := p.script[0];
    assert ProcFits(st, op, p);
    assert Advance(p.phase, call).Some?;
    assert Disciplined(Advance(p.phase, call).value, p.script[1..]);
    DoneEnds(st, op);
    hide Disciplined, Advance, PhaseFits, Guard, Inv;
    OneCall(p.phase, call);
    ThroughJoins(Free, p.made, [call]);
    AdvancedPhase(st, op, p, call);
    SamePhaseFits(st, op, p);
    hide Through, Effect;
    EffectFrame(st, op, p, call);
  }

  /** Fitting a phase is about the phase, the counts and the cluster. */
  lemma SamePhaseFits(st: State, op: nat, p: Proc)
    requires p.script != [] && Advance(p.phase, p.script[0]).Some? && op in st.procs
    requires p == st.procs[op]
    requires var call := p.script[0];
      PhaseFits(Effect(st, op, p, call), Proc(p.made, Advance(p.phase, call).value, p.script,
                                             if call.Record? then st.desired else p.counts))
    ensures PhaseFits(Left(st, op), Moved(st, p))
  {
    hide Effect, Advance;
  }

  lemma ZeroedIsZero(m: Counts)
    ensures forall r :: r in Zeroed(m) ==> Zeroed(m)[r] == 0
  {}

  lemma FrontThenApp(m: Counts)
    ensures App in m <==> App in SetRole(m, Front, 0)
    ensures (if App in m then SetRole(m, Front, 0)[App := 0] else SetRole(m, Front, 0)) == Zeroed(m)
  {
    forall r | r in m ensures r == App || r == Front {}
  }

  lemma ZeroThenApp(m: Counts)
    ensures (if App in m then Zeroed(m)[App := m[App]] else Zeroed(m)) == SetRole(m, Front, 0)
  {
    forall r | r in m ensures r == App || r == Front {}
  }

  lemma AppThenFront(m: Counts)
    ensures (if Front in m then m[Front := 0] else m) == SetRole(m, Front, 0)
    ensures (if Front in m then SetRole(m, Front, 0)[Front := m[Front]] else SetRole(m, Front, 0)) == m
  {}

  lemma AdvancedPhase(st: State, op: nat, p: Proc, call: Call)
    requires PhaseFits(st, p) && Guard(st, op, p, call) && Advance(p.phase, call).Some?
    requires !p.phase.Free? ==> st.Owns(op)
    requires st.JobOf(op).Busy() ==> p.phase.Working? || p.phase.Deleted?
    requires st.JobOf(op).present ==> p.phase.Working?
    requires Advance(p.phase, call) != Some(Done)
    ensures var next := Effect(st, op, p, call);
      var q := Proc(p.made, Advance(p.phase, call).value, p.script, if call.Record? then st.desired else p.counts);
      && next.Owns(op) && PhaseFits(next, q)
      && (next.JobOf(op).Busy() ==> q.phase.Working? || q.phase.Deleted?)
      && (next.JobOf(op).present ==> q.phase.Working?)
  {
    AdvancedCluster(st, op, p, call);
    AdvancedJob(st, op, p, call);
    hide Effect, PhaseFits, Guard, Advance;
  }

  lemma AdvancedJob(st: State, op: nat, p: Proc, call: Call)
    requires Guard(st, op, p, call) && Advance(p.phase, call).Some?
    requires !p.phase.Free? ==> st.Owns(op)
    requires st.JobOf(op).Busy() ==> p.phase.Working? || p.phase.Deleted?
    requires st.JobOf(op).present ==> p.phase.Working?
    requires Advance(p.phase, call) != Some(Done)
    ensures var next := Effect(st, op, p, call);
      var phase := Advance(p.phase, call).value;
      && next.Owns(op)
      && (next.JobOf(op).Busy() ==> phase.Working? || phase.Deleted?)
      && (next.JobOf(op).present ==> phase.Working?)
  {}

  lemma AdvancedCluster(st: State, op: nat, p: Proc, call: Call)
    requires PhaseFits(st, p) && Guard(st, op, p, call) && Advance(p.phase, call).Some?
    ensures PhaseFits(Effect(st, op, p, call),
                      Proc(p.made, Advance(p.phase, call).value, p.script,
                           if call.Record? then st.desired else p.counts))
  {
    if call.ScaleDown? || call.ScaleUp? {
      ScaledCluster(st, op, p, call);
    } else {
      UnscaledCluster(st, op, p, call);
    }
  }

  lemma ScaledCluster(st: State, op: nat, p: Proc, call: Call)
    requires PhaseFits(st, p) && Guard(st, op, p, call) && Advance(p.phase, call).Some?
    requires call.ScaleDown? || call.ScaleUp?
    ensures PhaseFits(Effect(st, op, p, call),
                      Proc(p.made, Advance(p.phase, call).value, p.script, p.counts))
  {
    FrontThenApp(p.counts);
    ZeroThenApp(p.counts);
    AppThenFront(p.counts);
    hide Zeroed, SetRole;
  }

  lemma UnscaledCluster(st: State, op: nat, p: Proc, call: Call)
    requires PhaseFits(st, p) && Guard(st, op, p, call) && Advance(p.phase, call).Some?
    requires !call.ScaleDown? && !call.ScaleUp?
    ensures PhaseFits(Effect(st, op, p, call),
                      Proc(p.made, Advance(p.phase, call).value, p.script,
                           if call.Record? then st.desired else p.counts))
  {
    ZeroedIsZero(p.counts);
    hide Zeroed, SetRole;
  }

  lemma NothingAfterDone(call: Call)
    ensures Advance(Done, call).None?
  {
    match call
    case _ =>
  }

  lemma DoneEnds(st: State, op: nat)
    requires op in st.procs && ProcFits(st, op, st.procs[op])
    ensures Advance(st.procs[op].phase, st.procs[op].script[0]).Some?
    ensures Advance(st.procs[op].phase, st.procs[op].script[0]) == Some(Done) ==>
              |st.procs[op].script| == 1
  {
    hide PhaseFits, Advance, Through;
    var p := st.procs[op];
    assert Disciplined(Advance(p.phase, p.script[0]).value, p.script[1..]);
    if p.script[1..] != [] { NothingAfterDone(p.script[1..][0]); }
  }

  lemma CallInv(st: State, step: Step)
    requires Inv(st) && step.CallStep? && Enabled(st, step)
    ensures Inv(Next(st, step))
  {
    var op := step.op;
    var p := st.procs[op];
    if step.outcome.FailsBefore? {
      LeaveInv(st, op);
    } else {
      LeftInv(st, op);
      assert ProcFits(st, op, p);
      DoneEnds(st, op);
      if step.outcome.Completes? && |p.script| > 1 {
        AdvancedFits(st, op);
        CompletedCall(st, op);
      }
    }
  }

  lemma CompletedCall(st: State, op: nat)
    requires Inv(st) && op in st.procs && |st.procs[op].script| > 1 && Inv(Left(st, op))
    requires var p := st.procs[op];
      var call := p.script[0];
      && Advance(p.phase, call).Some?
      && ProcFits(Left(st, op), op, Moved(st, p))
    ensures Inv(AfterCall(st, op))
  {
    var p := st.procs[op];
    var call := p.script[0];
    EffectFrame(st, op, p, call);
    var q := Moved(st, p);
    forall id | id in st.recoveries ensures st.recoveries[id].target != op {
      assert RecoveryFits(st, st.recoveries[id]);
    }
    JoinInv(Left(st, op), op, q);
    hide Inv, Effect, ProcFits, Advance, Moved;
    var done := Effect(st, op, p, call);
    assert (done.procs - {op})[op := q] == done.procs[op := q];
  }

  // ---- Recoveries ----------------------------------------------------------------------------------

  lemma RecoveryInv(st: State, step: Step)
    requires Inv(st) && Enabled(st, step) && Careful(st, step)
    requires step.StartRecovery? || step.RecoveryStep?
    ensures Inv(Next(st, step))
  {
    var next := Next(st, step);
    hide PhaseFits, Disciplined, Through;
    if step.RecoveryStep? {
      var r := st.recoveries[step.id];
      assert RecoveryFits(st, r);
      if next.lock != st.lock {
        assert r.stage >= 5;
        forall q | q in st.procs ensures st.procs[q].phase.Free? {
          assert ProcFits(st, q, st.procs[q]);
        }
        forall id | id in st.recoveries && id != step.id ensures st.recoveries[id].stage == 0 {
          assert RecoveryFits(st, st.recoveries[id]);
        }
      }
    }
    forall q | q in next.procs ensures ProcFits(next, q, next.procs[q]) {
      assert ProcFits(st, q, st.procs[q]);
      if next.lock != st.lock { FreeFits(st, next, q); } else { SameClusterFits(st, next, q); }
    }
    forall o ensures JobFits(next, o) { assert JobFits(st, o); }
    SameJobs(st, next);
    forall id | id in next.recoveries ensures RecoveryFits(next, next.recoveries[id]) {
      if id in st.recoveries { assert RecoveryFits(st, st.recoveries[id]); }
    }
  }

  lemma SameClusterFits(st: State, next: State, q: nat)
    requires q in st.procs && ProcFits(st, q, st.procs[q])
    requires next == st.(recoveries := next.recoveries)
    ensures ProcFits(next, q, st.procs[q])
  {
    hide Disciplined, Through;
  }

  // ---- Controllers -----------------------------------------------------------------------------------

  lemma PodInv(st: State, step: Step)
    requires Inv(st) && Enabled(st, step) && (step.PodStarts? || step.PodEnds?)
    ensures Inv(Next(st, step))
  {
    var next := Next(st, step);
    assert step.role == App || step.role == Front;
    assert !st.Quiet();
    forall q | q in next.procs ensures ProcFits(next, q, next.procs[q]) {
      assert ProcFits(st, q, st.procs[q]);
    }
    hide PhaseFits, Disciplined, Through;
    forall o ensures JobFits(next, o) { assert JobFits(st, o); }
    forall id | id in next.recoveries ensures RecoveryFits(next, next.recoveries[id]) {
      assert RecoveryFits(st, st.recoveries[id]);
      SameJobs(st, next);
      RecoveryFrame(st, next, st.recoveries[id]);
    }
  }

  lemma JobInv(st: State, step: Step)
    requires Inv(st) && Enabled(st, step)
    requires step.JobPodStarts? || step.JobPodEnds? || step.JobFinishes?
    ensures Inv(Next(st, step))
  {
    var next := Next(st, step);
    JobsOnlySettle(st, step);
    hide Next, Enabled, Disciplined, Through;
    forall q | q in next.procs ensures ProcFits(next, q, next.procs[q]) {
      assert ProcFits(st, q, st.procs[q]);
    }
    hide PhaseFits;
    forall o ensures JobFits(next, o) { assert JobFits(st, o); }
    forall id | id in next.recoveries ensures RecoveryFits(next, next.recoveries[id]) {
      assert RecoveryFits(st, st.recoveries[id]);
      RecoveryFrame(st, next, st.recoveries[id]);
    }
  }

  /** Controllers create no Job and let none run that could not run before. */
  lemma JobsOnlySettle(st: State, step: Step)
    requires Enabled(st, step)
    requires step.JobPodStarts? || step.JobPodEnds? || step.JobFinishes?
    ensures var next := Next(st, step);
      && next == st.(jobs := next.jobs)
      && (forall o :: next.JobOf(o).present == st.JobOf(o).present)
      && (forall o :: st.JobOf(o).terminal ==> next.JobOf(o).terminal)
      && (forall o :: next.JobOf(o).live ==>
            st.JobOf(o).live || (st.JobOf(o).present && !st.JobOf(o).terminal))
      && (forall o :: o in next.jobs ==> o in st.jobs)
  {}

  lemma StepInv(st: State, step: Step)
    requires Inv(st) && Enabled(st, step) && Careful(st, step)
    ensures Inv(Next(st, step))
  {
    match step
    case StartManager(_, _) => StartInv(st, step);
    case CallStep(_, _) => CallInv(st, step);
    case StartRecovery(_, _) => RecoveryInv(st, step);
    case RecoveryStep(_, _) => RecoveryInv(st, step);
    case PodStarts(_) => PodInv(st, step);
    case PodEnds(_) => PodInv(st, step);
    case JobPodStarts(_) => JobInv(st, step);
    case JobPodEnds(_, _) => JobInv(st, step);
    case JobFinishes(_) => JobInv(st, step);
  }

  // ---- Every run ---------------------------------------------------------------------------------------

  /** `steps` can be taken from `st` and end in `end`; `careful` asks every recovery to be used
      with care. */
  ghost predicate Runs(st: State, steps: seq<Step>, end: State, careful: bool)
    decreases |steps|
  {
    if steps == [] then st == end
    else
      && Enabled(st, steps[0]) && (careful ==> Careful(st, steps[0]))
      && Runs(Next(st, steps[0]), steps[1..], end, careful)
  }

  lemma {:induction false} RunInv(st: State, steps: seq<Step>, end: State)
    requires Inv(st) && Runs(st, steps, end, true)
    ensures Inv(end)
    decreases |steps|
  {
    if steps != [] {
      StepInv(st, steps[0]);
      hide Inv, Enabled, Careful, Next;
      RunInv(Next(st, steps[0]), steps[1..], end);
    }
  }

  /** For any number of managers and recoveries, with a failure possible before or after the
      effect of any call: no operation Pod beside an application or frontend Pod, and a manager
      between taking and giving back the lock owns it and is the only one. */
  lemma NeverCoexist(st: State, steps: seq<Step>, end: State)
    requires Init(st) && Runs(st, steps, end, true)
    ensures !end.Coexist()
    ensures forall a :: a in end.procs && !end.procs[a].phase.Free? ==> end.Owns(a)
    ensures forall a, b :: (a in end.procs && b in end.procs
              && !end.procs[a].phase.Free? && !end.procs[b].phase.Free?) ==> a == b
  {
    InitInv(st);
    RunInv(st, steps, end);
    InvIsSafe(end);
  }

  // ---- Failed runs keep the lock -------------------------------------------------------------------------

  /** A manager that fails anywhere but in the deletion itself leaves its lock where it was. */
  lemma FailureKeepsLock(st: State, step: Step)
    requires Inv(st) && step.CallStep? && Enabled(st, step) && !step.outcome.Completes?
    requires !st.procs[step.op].phase.Free?
    ensures step.op !in Next(st, step).procs
    ensures Next(st, step).Owns(step.op) <==>
              step.outcome.FailsBefore? || !st.procs[step.op].script[0].DeleteLock?
  {
    hide PhaseFits, Advance, Disciplined, Through;
    var p := st.procs[step.op];
    assert ProcFits(st, step.op, p);
    DoneEnds(st, step.op);
    CallsByPhase(p.phase, p.script[0]);
    hide Inv, ProcFits, Guard;
  }

  /** The lock of a dead operation stays until a recovery of that very operation deletes it. */
  lemma DeadLockStays(st: State, step: Step, op: nat)
    requires Inv(st) && Enabled(st, step) && Careful(st, step)
    requires st.Owns(op) && op !in st.procs && op in st.used
    ensures Next(st, step).Owns(op)
         || (step.RecoveryStep? && st.recoveries[step.id] == Recovery(op, 5))
    ensures op !in Next(st, step).procs && op in Next(st, step).used
  {
    if step.CallStep? {
      var p := st.procs[step.op];
      assert ProcFits(st, step.op, p);
      assert p.phase.Free?;
      DoneEnds(st, step.op);
      assert p.script[0].Acquire?;
      assert !Guard(st, step.op, p, p.script[0]);
      hide PhaseFits, Disciplined, Through, Guard;
    } else if step.RecoveryStep? {
      var r := st.recoveries[step.id];
      assert RecoveryFits(st, r);
      hide PhaseFits, Disciplined, Through;
    }
  }

  // ---- A completed backup restores what it recorded ---------------------------------------------------------

  /** What a backup records is what was running, and nothing but its own calls changes it. */
  lemma RecordIsDesired(st: State, step: Step)
    requires Inv(st) && step.CallStep? && step.outcome.Completes? && Enabled(st, step)
    requires st.procs[step.op].script[0].Record?
    ensures step.op in Next(st, step).procs && Next(st, step).procs[step.op].counts == st.desired
    ensures Next(st, step).desired == st.desired
  {
    var p := st.procs[step.op];
    assert ProcFits(st, step.op, p);
    assert p.phase.Held?;
    assert Disciplined(Recorded, p.script[1..]);
    assert p.script[1..] != [];
    hide PhaseFits, Through, Disciplined;
  }

  /** A manager keeps what it recorded through all its later calls. */
  lemma CountsAreKept(st: State, step: Step, op: nat)
    requires Inv(st) && Enabled(st, step) && Careful(st, step) && op in st.procs
    requires !(step.CallStep? && step.op == op && st.procs[op].script[0].Record?)
    requires op in Next(st, step).procs
    ensures Next(st, step).procs[op].counts == st.procs[op].counts
  {
    assert op in st.used by { assert ProcFits(st, op, st.procs[op]); }
    hide Inv, Careful, Effect, Disciplined, Guard, RecoveryGuard, Advance;
    if step.CallStep? { CallKeepsCounts(st, step, op); }
  }

  lemma CallKeepsCounts(st: State, step: Step, op: nat)
    requires Enabled(st, step) && op in st.procs && step.CallStep?
    requires !(step.op == op && st.procs[op].script[0].Record?)
    requires op in Next(st, step).procs
    ensures Next(st, step).procs[op].counts == st.procs[op].counts
  {
    EffectFrame(st, step.op, st.procs[step.op], st.procs[step.op].script[0]);
    hide Effect, Guard, Advance;
  }

  /** The calls a backup has made before it deletes the lock leave it restored. */
  lemma BackupEndsRestored(made: seq<Call>)
    requires made + [DeleteLock] == Backup()
    ensures Through(Free, made) == Some(Checked(true))
  {
    BackupMade(made);
    hide Through, Stop, RunJob, Resume, Backup;
    OneCall(Free, Acquire);
    StopThrough();
    JobThrough(false);
    ResumeThrough();
    ThroughJoins(Free, [Acquire], Stop());
    ThroughJoins(Free, [Acquire] + Stop(), RunJob());
    ThroughJoins(Free, [Acquire] + Stop() + RunJob(), Resume());
    OneCall(Restored, CheckLock);
    ThroughJoins(Free, [Acquire] + Stop() + RunJob() + Resume(), [CheckLock]);
  }

  lemma BackupMade(made: seq<Call>)
    requires made + [DeleteLock] == Backup()
    ensures made == [Acquire] + Stop() + RunJob() + Resume() + [CheckLock]
  {
    hide Stop, RunJob, Resume;
    var head := [Acquire] + Stop() + RunJob() + Resume();
    assert Release() == [CheckLock] + [DeleteLock];
    Associate(head, [CheckLock], [DeleteLock]);
    LastDropped(made, head + [CheckLock], DeleteLock);
  }

  lemma LastDropped(a: seq<Call>, b: seq<Call>, c: Call)
    requires a + [c] == b + [c]
    ensures a == b
  {
    assert (a + [c])[..|a + [c]| - 1] == a;
    assert (b + [c])[..|b + [c]| - 1] == b;
  }

  /** A backup that completes leaves every Deployment with exactly the count it recorded, and
      gives back its own lock. */
  lemma BackupRestoresCounts(st: State, step: Step)
    requires Inv(st) && step.CallStep? && step.outcome.Completes? && Enabled(st, step)
    requires var p := st.procs[step.op];
      p.made + p.script == Backup() && |p.script| == 1
    ensures var next := Next(st, step);
      && next.desired == st.procs[step.op].counts
      && st.Owns(step.op) && next.lock.None? && step.op !in next.procs
  {
    var p := st.procs[step.op];
    assert ProcFits(st, step.op, p);
    assert p.script == [DeleteLock] by {
      hide Disciplined, Through;
      assert p.script[0] == (p.made + p.script)[|p.made|];
      assert Backup()[|Backup()| - 1] == DeleteLock;
    }
    BackupEndsRestored(p.made);
    hide Disciplined, Through;
  }

  // ---- From the record to the end --------------------------------------------------------------------------

  /** A backup that has recorded `counts`. */
  ghost predicate Backing(st: State, op: nat, counts: Counts) {
    && op in st.procs && st.procs[op].counts == counts
    && |st.procs[op].made| >= 2 && st.procs[op].made + st.procs[op].script == Backup()
  }

  lemma BackupCalls()
    ensures |Backup()| == 15 && Backup()[1].Record?
    ensures forall i :: 0 <= i < |Backup()| && i != 1 ==> !Backup()[i].Record?
  {}

  /** Other steps neither end nor change a backup, and its own calls keep what it recorded. */
  lemma BackingStep(st: State, step: Step, op: nat, counts: Counts)
    requires Inv(st) && Enabled(st, step) && Careful(st, step) && Backing(st, op, counts)
    ensures op in Next(st, step).procs ==> Backing(Next(st, step), op, counts)
    ensures op in Next(st, step).used
  {
    var p := st.procs[op];
    assert p.script != [] && op in st.used by { assert ProcFits(st, op, p); }
    assert step.CallStep? && step.op == op ==> !p.script[0].Record? by {
      BackupCalls();
      assert p.script[0] == (p.made + p.script)[|p.made|];
    }
    hide Inv, Careful, Backup;
    UsedGrows(st, step);
    if op in Next(st, step).procs {
      if step.CallStep? {
        CallKeepsCounts(st, step, op);
        CallKeepsProcs(st, step, op);
      } else {
        OthersKeepProc(st, step, op);
      }
    }
    hide Enabled, Next;
  }

  lemma UsedGrows(st: State, step: Step)
    requires Enabled(st, step)
    ensures st.used <= Next(st, step).used
  {
    if step.CallStep? {
      EffectFrame(st, step.op, st.procs[step.op], st.procs[step.op].script[0]);
    }
    hide Effect, Guard, Advance, Disciplined, RecoveryGuard;
  }

  lemma OthersKeepProc(st: State, step: Step, op: nat)
    requires Enabled(st, step) && !step.CallStep? && op in st.procs && op in st.used
    ensures op in Next(st, step).procs && Next(st, step).procs[op] == st.procs[op]
  {
    hide RecoveryGuard, Disciplined;
  }

  lemma CallKeepsProcs(st: State, step: Step, op: nat)
    requires Enabled(st, step) && step.CallStep? && op in st.procs && st.procs[op].script != []
    requires op in Next(st, step).procs
    ensures var p, q := st.procs[op], Next(st, step).procs[op];
      q.made + q.script == p.made + p.script && |q.made| >= |p.made|
    ensures Next(st, step).used == st.used
  {
    EffectFrame(st, step.op, st.procs[step.op], st.procs[step.op].script[0]);
    var p := st.procs[op];
    assert p.script == [p.script[0]] + p.script[1..];
    hide Effect, Guard, Advance;
  }

  lemma GoneStays(st: State, step: Step, op: nat)
    requires Enabled(st, step) && op in st.used && op !in st.procs
    ensures op in Next(st, step).used && op !in Next(st, step).procs
  {
    if step.CallStep? {
      EffectFrame(st, step.op, st.procs[step.op], st.procs[step.op].script[0]);
    }
    hide Effect, Guard, Advance, Disciplined, RecoveryGuard;
  }

  lemma {:induction false} GoneForGood(st: State, steps: seq<Step>, end: State, op: nat)
    requires Runs(st, steps, end, true) && op in st.used && op !in st.procs
    ensures op !in end.procs
    decreases |steps|
  {
    if steps != [] {
      GoneStays(st, steps[0], op);
      hide Enabled, Careful, Next;
      GoneForGood(Next(st, steps[0]), steps[1..], end, op);
    }
  }

  lemma {:induction false} BackingRuns(st: State, steps: seq<Step>, end: State, op: nat, counts: Counts)
    requires Inv(st) && Runs(st, steps, end, true) && Backing(st, op, counts) && op in end.procs
    ensures Backing(end, op, counts)
    decreases |steps|
  {
    if steps != [] {
      StepInv(st, steps[0]);
      BackingStep(st, steps[0], op, counts);
      hide Inv, Enabled, Careful, Next, Backing;
      var next := Next(st, steps[0]);
      if op in next.procs {
        BackingRuns(next, steps[1..], end, op, counts);
      } else {
        GoneForGood(next, steps[1..], end, op);
      }
    }
  }

  lemma RecordBacks(st: State, step: Step)
    requires Inv(st) && step.CallStep? && step.outcome.Completes? && Enabled(st, step)
    requires var p := st.procs[step.op]; p.script[0].Record? && p.made + p.script == Backup()
    ensures Backing(Next(st, step), step.op, st.desired) && Next(st, step).desired == st.desired
  {
    var p := st.procs[step.op];
    RecordIsDesired(st, step);
    BackupCalls();
    assert p.script[0] == Backup()[|p.made|];
    assert p.script == [p.script[0]] + p.script[1..];
    hide Inv, Guard, Advance, Backup, Disciplined;
  }

  /** A backup that completes, whatever happens between its calls, leaves every Deployment with the
      count that was wanted when it recorded the counts, and no lock. */
  lemma BackupLeavesCounts(st: State, before: seq<Step>, start: State, record: Step,
                           during: seq<Step>, end: State, last: Step)
    requires Init(st) && Runs(st, before, start, true)
    requires record.CallStep? && record.outcome.Completes? && Enabled(start, record)
    requires var p := start.procs[record.op]; p.script[0].Record? && p.made + p.script == Backup()
    requires Runs(Next(start, record), during, end, true)
    requires last == CallStep(record.op, Completes) && Enabled(end, last) && |end.procs[last.op].script| == 1
    ensures Next(end, last).desired == start.desired && Next(end, last).lock.None?
    ensures record.op !in Next(end, last).procs && start.Owns(record.op) && end.Owns(record.op)
  {
    InitInv(st);
    RunInv(st, before, start);
    StepInv(start, record);
    RecordBacks(start, record);
    InvIsSafe(start);
    assert !start.procs[record.op].phase.Free? by { RecordIsHeld(start, record.op); }
    hide Init, Careful;
    assert last.op in end.procs;
    hide Enabled, Inv, Next;
    BackingRuns(Next(start, record), during, end, record.op, start.desired);
    RunInv(Next(start, record), during, end);
    BackupRestoresCounts(end, last);
  }

  lemma RecordIsHeld(st: State, op: nat)
    requires Inv(st) && op in st.procs && st.procs[op].script != [] && st.procs[op].script[0].Record?
    ensures st.procs[op].phase.Held?
  {
    assert ProcFits(st, op, st.procs[op]);
    hide PhaseFits, Through;
  }
}
