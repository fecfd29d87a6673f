/** Commands of one credential transition that overlap. The journal is not locked: each command has the
    one it loaded in memory, and saves that one. What is locked is the maintenance operator of the
    database, which the fence command holds from entering maintenance to its last save, and each of the
    two Jobs while it commits. */
module CredentialOverlap {
  import opened Options
  import opened Credentials
  import opened CredentialSafety
  import opened CredentialProgress
  import CredentialStage

  /** A world without a process of its own, and the commands at work in it. */
  datatype System = System(world: State, procs: map<nat, Proc>)

  /** What one command sees: the world, and itself. */
  function View(sys: System, id: nat): State {
    sys.world.(proc := if id in sys.procs then Some(sys.procs[id]) else None)
  }

  function Back(sys: System, id: nat, st: State): System {
    System(st.(proc := None), if st.proc.Some? then sys.procs[id := st.proc.value] else sys.procs - {id})
  }

  datatype Move = Move(id: nat, step: Step)

  // ---- The maintenance operator --------------------------------------------------------------------------

  /** The command has the operator open: past the call that enters maintenance, until it has saved that
      everything is held. */
  predicate Holds(p: Proc) {
    match p.call
    case SaveFenced => true
    case ScaleDown(_) => true
    case AwaitDrained => true
    case ReadCorpus => true
    case SaveHeld => true
    case _ => false
  }

  /** Nobody but `id` has the operator. */
  predicate Free(sys: System, id: nat) { forall i :: i in sys.procs && i != id ==> !Holds(sys.procs[i]) }

  predicate Enters(st: State, step: Step) {
    step.Do? && !step.outcome.FailsBefore? && st.proc.Some? && st.proc.value.call.Enter?
  }

  predicate Commits(step: Step) { step.ComputeCommits? || step.ReleaseCommits? }

  /** Each command takes the steps it would take alone, and enters maintenance, as the Jobs commit, only
      when nobody has the operator; `alone` lets it begin only when no other is at work. */
  predicate Allowed(plan: Plan, sys: System, m: Move, alone: bool) {
    && Enabled(plan, View(sys, m.id), m.step)
    && (Enters(View(sys, m.id), m.step) ==> Free(sys, m.id))
    && (Commits(m.step) ==> forall i :: i in sys.procs ==> !Holds(sys.procs[i]))
    && (alone && m.step.Begin? ==> sys.procs == map[])
  }

  function Moved(plan: Plan, sys: System, m: Move): System
    requires Allowed(plan, sys, m, false)
  {
    Back(sys, m.id, Next(plan, View(sys, m.id), m.step))
  }

  predicate Moves(plan: Plan, sys: System, moves: seq<Move>, end: System, alone: bool)
    decreases |moves|
  {
    if moves == [] then sys == end
    else Allowed(plan, sys, moves[0], alone) && Moves(plan, Moved(plan, sys, moves[0]), moves[1..], end, alone)
  }

  /** One command at most has the operator; as long as it has, maintenance is its operation's, and the
      corpus it has read is the one that is there. */
  predicate OperatorFits(plan: Plan, sys: System) {
    && sys.world.proc.None?
    && (forall i, j :: i in sys.procs && j in sys.procs && Holds(sys.procs[i]) && Holds(sys.procs[j]) ==> i == j)
    && (forall i :: i in sys.procs && Holds(sys.procs[i]) ==> HolderFits(plan, sys.world, sys.procs[i]))
  }

  predicate HolderFits(plan: Plan, world: State, p: Proc) {
    && Owned(plan, world) && p.memory.epoch == Some(world.maintenance.epoch)
    && (p.call.SaveHeld? ==> p.memory.corpus == Some(world.corpus))
  }

  lemma OperatorStep(plan: Plan, sys: System, m: Move)
    requires OperatorFits(plan, sys) && Allowed(plan, sys, m, false)
    ensures OperatorFits(plan, Moved(plan, sys, m))
  {
    var st, next := View(sys, m.id), Moved(plan, sys, m);
    if m.step.Begin? || m.step.Do? {
      HolderSteps(plan, st, m.step);
    } else {
      assert next.procs == sys.procs;
    }
    forall i | i in next.procs && Holds(next.procs[i]) ensures HolderFits(plan, next.world, next.procs[i]) {
      if i != m.id || !(m.step.Begin? || m.step.Do?) {
        assert HolderFits(plan, sys.world, sys.procs[i]);
        HolderStays(plan, sys, m, i);
      }
    }
    hide Enabled, Next, HolderFits;
  }

  /** Its own steps keep what the holder knows; who does not hold becomes the holder only by entering. */
  lemma HolderSteps(plan: Plan, st: State, step: Step)
    requires Enabled(plan, st, step) && (step.Begin? || step.Do?)
    requires st.proc.Some? && Holds(st.proc.value) ==> HolderFits(plan, st, st.proc.value)
    ensures var next := Next(plan, st, step);
      next.proc.Some? && Holds(next.proc.value) ==>
        HolderFits(plan, next, next.proc.value) && (Enters(st, step) || (st.proc.Some? && Holds(st.proc.value)))
  {
    hide CredentialStage.StageCredential, SameSource, StoppedRoles, Scalable;
  }

  /** Nothing others do touches the fence of the holder, or the corpus behind it. */
  lemma HolderStays(plan: Plan, sys: System, m: Move, i: nat)
    requires Allowed(plan, sys, m, false) && i in sys.procs && Holds(sys.procs[i])
    requires i != m.id || !(m.step.Begin? || m.step.Do?)
    requires HolderFits(plan, sys.world, sys.procs[i])
    ensures HolderFits(plan, Moved(plan, sys, m).world, sys.procs[i])
  {
    hide CredentialStage.StageCredential, SameSource, StoppedRoles, Scalable;
  }

  lemma {:induction false} OperatorRuns(plan: Plan, sys: System, moves: seq<Move>, end: System)
    requires OperatorFits(plan, sys) && Moves(plan, sys, moves, end, false)
    ensures OperatorFits(plan, end)
    decreases |moves|
  {
    if moves != [] {
      OperatorStep(plan, sys, moves[0]);
      hide OperatorFits, Allowed, Moved;
      OperatorRuns(plan, Moved(plan, sys, moves[0]), moves[1..], end);
    }
  }

  /** However commands overlap, two are never between entering maintenance and the save of what is held;
      the one that is has its maintenance for itself, and saves the corpus that is there. */
  lemma OperatorIsExclusive(plan: Plan, st: State, moves: seq<Move>, end: System)
    requires st.proc.None? && Moves(plan, System(st, map[]), moves, end, false)
    ensures forall i, j :: (i in end.procs && j in end.procs && Holds(end.procs[i]) && Holds(end.procs[j])) ==> i == j
    ensures forall i :: i in end.procs && Holds(end.procs[i]) ==>
              Owned(plan, end.world) && end.procs[i].memory.epoch == Some(end.world.maintenance.epoch)
    ensures forall i :: i in end.procs && end.procs[i].call.SaveHeld? ==>
              end.procs[i].memory.corpus == Some(end.world.corpus)
  {
    OperatorRuns(plan, System(st, map[]), moves, end);
    hide Moves;
  }

  // ---- One at a time -----------------------------------------------------------------------------------

  /** At most one command is at work, and the invariant holds of it and the world. */
  ghost predicate OneInv(plan: Plan, sys: System) {
    && (forall i, j :: i in sys.procs && j in sys.procs ==> i == j)
    && (forall id :: sys.procs == map[] || id in sys.procs ==> Inv(plan, View(sys, id)))
  }

  /** The steps of the world are the same whoever looks on. */
  lemma WorldIgnoresProc(plan: Plan, st: State, step: Step, p: Option<Proc>)
    requires !step.Begin? && !step.Do? && Enabled(plan, st, step)
    ensures Enabled(plan, st.(proc := p), step)
    ensures Next(plan, st.(proc := p), step) == Next(plan, st, step).(proc := p)
  {}

  lemma OneStepInv(plan: Plan, sys: System, m: Move)
    requires plan.Valid() && OneInv(plan, sys) && Allowed(plan, sys, m, true)
    ensures OneInv(plan, Moved(plan, sys, m))
    ensures Rank(Moved(plan, sys, m).world.journal.phase) >= Rank(sys.world.journal.phase)
  {
    hide Inv;
    if !m.step.Begin? && !m.step.Do? {
      OneWorldStep(plan, sys, m);
    } else {
      hide Enabled, Next;
      var st := View(sys, m.id);
      assert m.id in sys.procs || sys.procs == map[] by { ActsInside(plan, sys, m); }
      StepInv(plan, st, m.step);
      PhaseAdvances(plan, st, m.step);
      var next := Next(plan, st, m.step);
      forall id | Moved(plan, sys, m).procs == map[] || id in Moved(plan, sys, m).procs
        ensures View(Moved(plan, sys, m), id) == next
      {}
    }
  }

  lemma ActsInside(plan: Plan, sys: System, m: Move)
    requires Allowed(plan, sys, m, true) && (m.step.Begin? || m.step.Do?)
    ensures m.id in sys.procs || sys.procs == map[]
  {
    hide Guard, First;
  }

  lemma OneWorldStep(plan: Plan, sys: System, m: Move)
    requires plan.Valid() && OneInv(plan, sys) && Allowed(plan, sys, m, true) && !m.step.Begin? && !m.step.Do?
    ensures OneInv(plan, Moved(plan, sys, m))
    ensures Rank(Moved(plan, sys, m).world.journal.phase) >= Rank(sys.world.journal.phase)
  {
    hide Inv;
    var st := View(sys, m.id);
    var next := Moved(plan, sys, m);
    WorldIgnoresProc(plan, st, m.step, st.proc);
    hide Enabled, Next;
    assert next.procs == sys.procs;
    forall id | next.procs == map[] || id in next.procs
      ensures Inv(plan, View(next, id))
      ensures Rank(next.world.journal.phase) >= Rank(sys.world.journal.phase)
    {
      var other := View(sys, id);
      assert other == st.(proc := other.proc);
      WorldIgnoresProc(plan, st, m.step, other.proc);
      StepInv(plan, other, m.step);
      PhaseAdvances(plan, other, m.step);
      assert View(next, id) == Next(plan, other, m.step);
    }
    var some: nat := if sys.procs == map[] then 0 else var id :| id in sys.procs; id;
    assert sys.procs == map[] || some in sys.procs;
  }

  lemma {:induction false} OneAtATimeInv(plan: Plan, sys: System, moves: seq<Move>, end: System)
    requires plan.Valid() && OneInv(plan, sys) && Moves(plan, sys, moves, end, true)
    ensures OneInv(plan, end) && Rank(end.world.journal.phase) >= Rank(sys.world.journal.phase)
    decreases |moves|
  {
    if moves != [] {
      OneStepInv(plan, sys, moves[0]);
      hide OneInv, Enabled, Moved;
      OneAtATimeInv(plan, Moved(plan, sys, moves[0]), moves[1..], end);
    }
  }

  /** Commands given one after another, whoever gives them, never take the phase back, and while it is
      held, computed or staged nothing is up. */
  lemma OneAtATimeIsSafe(plan: Plan, st: State, moves: seq<Move>, mid: System, more: seq<Move>, end: System)
    requires Init(plan, st)
    requires Moves(plan, System(st, map[]), moves, mid, true) && Moves(plan, mid, more, end, true)
    ensures Rank(end.world.journal.phase) >= Rank(mid.world.journal.phase)
    ensures end.world.journal.phase in {Held, Computed, Staged} ==>
              end.world.roles.AllStopped() && end.world.pods == map[]
  {
    StartsOne(plan, st);
    OneAtATimeInv(plan, System(st, map[]), moves, mid);
    OneAtATimeInv(plan, mid, more, end);
    hide Moves, OneInv, Init;
    OneHeldIsDown(plan, end);
  }

  lemma StartsOne(plan: Plan, st: State)
    requires Init(plan, st)
    ensures plan.Valid() && OneInv(plan, System(st, map[]))
  {
    InitInv(plan, st);
    hide Inv;
    assert forall id :: View(System(st, map[]), id) == st;
  }

  lemma OneHeldIsDown(plan: Plan, sys: System)
    requires OneInv(plan, sys)
    ensures sys.world.journal.phase in {Held, Computed, Staged} ==>
              sys.world.roles.AllStopped() && sys.world.pods == map[]
  {
    var some: nat := if sys.procs == map[] then 0 else var id :| id in sys.procs; id;
    assert Inv(plan, View(sys, some));
    hide FenceFits, JobsFit, DataFits, ProcFits, Settled, OnTarget, PodFits, OneInv;
  }

  // ---- Two at a time -----------------------------------------------------------------------------------

  ghost predicate Reaches(plan: Plan, a: System, b: System) { exists moves :: Moves(plan, a, moves, b, false) }

  lemma {:induction false} MovesJoin(plan: Plan, a: System, s: seq<Move>, b: System, t: seq<Move>, c: System)
    requires Moves(plan, a, s, b, false) && Moves(plan, b, t, c, false)
    ensures Moves(plan, a, s + t, c, false)
    decreases |s|
  {
    hide Allowed, Moved;
    if s == [] {
      assert s + t == t;
    } else {
      assert (s + t)[0] == s[0] && (s + t)[1..] == s[1..] + t;
      MovesJoin(plan, Moved(plan, a, s[0]), s[1..], b, t, c);
    }
  }

  lemma ReachesOn(plan: Plan, a: System, b: System, c: System)
    requires Reaches(plan, a, b) && Reaches(plan, b, c)
    ensures Reaches(plan, a, c)
  {
    hide Moves;
    var s :| Moves(plan, a, s, b, false);
    var t :| Moves(plan, b, t, c, false);
    MovesJoin(plan, a, s, b, t, c);
  }

  lemma ReachesMove(plan: Plan, sys: System, m: Move)
    requires Allowed(plan, sys, m, false)
    ensures Reaches(plan, sys, Moved(plan, sys, m))
  {
    hide Allowed, Moved;
    var end := Moved(plan, sys, m);
    assert [m][1..] == [];
    assert Moves(plan, end, [], end, false);
    assert Moves(plan, sys, [m], end, false);
  }

  /** A holder's phase is before the Jobs. */
  lemma HolderHasNoJobs(plan: Plan, st: State, step: Step)
    requires Inv(plan, st) && Enabled(plan, st, step) && Commits(step)
    ensures st.proc.Some? ==> !Holds(st.proc.value)
  {
    hide FenceFits, RolesFit, DataFits, Settled, OnTarget, PodFits;
  }

  /** What a command can do alone it can do beside others that are at rest without the operator. */
  lemma {:induction false} RunsBeside(plan: Plan, sys: System, id: nat, steps: seq<Step>, b: State)
    requires plan.Valid() && sys.world.proc.None? && Inv(plan, View(sys, id)) && Free(sys, id)
    requires Runs(plan, View(sys, id), steps, b)
    ensures Reaches(plan, sys, Back(sys, id, b))
    decreases |steps|
  {
    hide Enabled, Next, Inv, Commits, Enters;
    if steps == [] {
      assert Back(sys, id, b) == sys;
      assert Moves(plan, sys, [], sys, false);
    } else {
      var m := Move(id, steps[0]);
      if Commits(m.step) { HolderHasNoJobs(plan, View(sys, id), m.step); }
      assert Allowed(plan, sys, m, false);
      var next := Moved(plan, sys, m);
      assert View(next, id) == Next(plan, View(sys, id), steps[0]);
      StepInv(plan, View(sys, id), steps[0]);
      RunsBeside(plan, next, id, steps[1..], b);
      assert Back(next, id, b) == Back(sys, id, b);
      ReachesMove(plan, sys, m);
      ReachesOn(plan, sys, next, Back(sys, id, b));
    }
  }

  lemma LeadsBeside(plan: Plan, sys: System, id: nat, b: State)
    requires plan.Valid() && sys.world.proc.None? && Inv(plan, View(sys, id)) && Free(sys, id)
    requires Leads(plan, View(sys, id), b)
    ensures Reaches(plan, sys, Back(sys, id, b))
  {
    hide Runs, Reaches, Inv;
    var steps :| Runs(plan, View(sys, id), steps, b);
    RunsBeside(plan, sys, id, steps, b);
  }

  /** One command comes to a call and rests there; others go on without it; then it makes its call. */
  lemma Overtakes(plan: Plan, st: State, late: State, ahead: State) returns (mid: System, end: System)
    requires plan.Valid() && st.proc.None? && At(plan, st, late) && Inv(plan, st)
    requires late.proc.Some? && !Holds(late.proc.value)
    requires Leads(plan, late.(proc := None), ahead) && ahead.proc.None?
    requires Guard(plan, ahead.(proc := late.proc), late.proc.value)
    ensures Reaches(plan, System(st, map[]), mid) && mid == System(ahead, map[2 := late.proc.value])
    ensures Allowed(plan, mid, Move(2, Do(Completes)), false)
    ensures end == Moved(plan, mid, Move(2, Do(Completes))) && Reaches(plan, mid, end)
  {
    hide Inv, Reaches, Guard, Moves, Allowed, Holds;
    mid := Beside(plan, st, late, ahead);
    end := LateCall(plan, ahead, late.proc.value);
  }

  /** The one rests while the others go on. */
  lemma Beside(plan: Plan, st: State, late: State, ahead: State) returns (mid: System)
    requires plan.Valid() && st.proc.None? && At(plan, st, late) && Inv(plan, st)
    requires late.proc.Some? && !Holds(late.proc.value)
    requires Leads(plan, late.(proc := None), ahead) && ahead.proc.None?
    ensures Reaches(plan, System(st, map[]), mid) && mid == System(ahead, map[2 := late.proc.value])
  {
    var p := late.proc.value;
    var start, beside := System(st, map[]), System(late.(proc := None), map[2 := p]);
    LeaveInv(plan, late);
    hide Inv, Reaches, Leads, Moves, Holds;
    assert View(start, 2) == st && Back(start, 2, late) == beside;
    LeadsBeside(plan, start, 2, late);
    assert View(beside, 1) == late.(proc := None);
    mid := System(ahead, map[2 := p]);
    assert Back(beside, 1, ahead) == mid;
    LeadsBeside(plan, beside, 1, ahead);
    ReachesOn(plan, start, beside, mid);
  }

  lemma LateCall(plan: Plan, ahead: State, p: Proc) returns (end: System)
    requires ahead.proc.None? && Guard(plan, ahead.(proc := Some(p)), p)
    ensures var mid := System(ahead, map[2 := p]);
      && Allowed(plan, mid, Move(2, Do(Completes)), false)
      && end == Moved(plan, mid, Move(2, Do(Completes))) && Reaches(plan, mid, end)
  {
    var mid, m := System(ahead, map[2 := p]), Move(2, Do(Completes));
    hide Guard, Effect, Reaches;
    assert View(mid, 2) == ahead.(proc := Some(p));
    end := Moved(plan, mid, m);
    ReachesMove(plan, mid, m);
  }

  lemma LeaveInv(plan: Plan, st: State)
    requires Inv(plan, st)
    ensures Inv(plan, st.(proc := None))
  {
    SameWorld(plan, st.(proc := None), st);
    hide FenceFits, JobsFit, RolesFit, DataFits, ProcFits;
  }
}
