/** A backup of a running installation: fence, drain, freeze, export entry by entry, verify cold, give
    the fence back and start the roles again, with a failure possible at every call. */
module SourceBackup {
  import opened Options

  datatype Role = Frontend | Api | Worker | Stub

  datatype Counts = Counts(frontend: nat, api: nat, worker: nat, stub: nat) {
    function Get(r: Role): nat {
      match r case Frontend => frontend case Api => api case Worker => worker case Stub => stub
    }
    function With(r: Role, n: nat): Counts {
      match r
      case Frontend => this.(frontend := n)
      case Api => this.(api := n)
      case Worker => this.(worker := n)
      case Stub => this.(stub := n)
    }
  }

  const INTENDED := Counts(2, 2, 2, 1)
  const ZERO := Counts(0, 0, 0, 0)

  datatype Maintenance = Maintenance(enabled: bool, op: Option<nat>, epoch: nat)

  datatype Call = CheckTopology | Enter | Down(role: Role) | AwaitDrained | Freeze | Export | Finish | VerifyCold
                | AwaitAgain | Leave | Up(role: Role)

  /** `source` is what the stores hold by name; `plan` what was to be exported when it was frozen. */
  datatype State = State(call: Option<Call>, maintenance: Maintenance, counts: Counts, pods: set<nat>,
                         source: map<string, string>, plan: map<string, string>, epoch: nat,
                         archive: map<string, string>, complete: bool, cold: bool)

  predicate Owned(op: nat, st: State) { st.maintenance.enabled && st.maintenance.op == Some(op) }

  /** What `guard` demands before every entry: the fence of this epoch, and no writer. */
  predicate Guarded(op: nat, st: State) { Owned(op, st) && st.maintenance.epoch == st.epoch && st.pods == {} }

  predicate Guard(op: nat, st: State, name: string)
    requires st.call.Some?
  {
    match st.call.value
    case CheckTopology => st.counts == INTENDED
    case Enter => !st.maintenance.enabled && st.maintenance.op != Some(op)
    case Down(r) => st.counts.Get(r) == INTENDED.Get(r)
    case AwaitDrained => st.pods == {}
    case Freeze => true
    case Export => Guarded(op, st) && name in st.plan && name !in st.archive && name in st.source
    case Finish => Guarded(op, st) && st.archive.Keys == st.plan.Keys
    case VerifyCold => st.complete
    case AwaitAgain => st.pods == {}
    case Leave => Owned(op, st)
    case Up(r) => st.counts.Get(r) == 0
  }

  function Effect(op: nat, st: State, name: string): State
    requires st.call.Some? && Guard(op, st, name)
  {
    match st.call.value
    case Enter =>
      st.(maintenance := Maintenance(true, Some(op), st.maintenance.epoch + 1), epoch := st.maintenance.epoch + 1)
    case Down(r) => st.(counts := st.counts.With(r, 0))
    case Freeze => st.(plan := st.source)
    case Export => st.(archive := st.archive[name := st.source[name]])
    case Finish => st.(complete := true)
    case VerifyCold => st.(cold := true)
    case Leave => st.(maintenance := st.maintenance.(enabled := false))
    case Up(r) => st.(counts := st.counts.With(r, INTENDED.Get(r)))
    case _ => st
  }

  /** The call after this one; entries are exported until none is left. */
  function After(st: State): Option<Call>
    requires st.call.Some?
  {
    match st.call.value
    case CheckTopology => Some(Enter)
    case Enter => Some(Down(Frontend))
    case Down(Frontend) => Some(Down(Api))
    case Down(Api) => Some(Down(Worker))
    case Down(Worker) => Some(Down(Stub))
    case Down(Stub) => Some(AwaitDrained)
    case AwaitDrained => Some(Freeze)
    case Freeze => Some(if st.plan.Keys == {} then Finish else Export)
    case Export => Some(if st.archive.Keys == st.plan.Keys then Finish else Export)
    case Finish => Some(VerifyCold)
    case VerifyCold => Some(AwaitAgain)
    case AwaitAgain => Some(Leave)
    case Leave => Some(Up(Stub))
    case Up(Stub) => Some(Up(Api))
    case Up(Api) => Some(Up(Worker))
    case Up(Worker) => Some(Up(Frontend))
    case Up(Frontend) => None
  }

  datatype Outcome = Completes | FailsBefore | FailsAfter

  datatype Step =
    | Do(name: string, outcome: Outcome)
    | PodStarts(id: nat) | PodEnds(id: nat)
    | WriterCommits(source: map<string, string>)
    | OtherEnters(op: nat) | OtherLeaves | OtherChanges(source: map<string, string>)

  predicate Foreign(op: nat, st: State) {
    st.maintenance.enabled && st.maintenance.op.Some? && st.maintenance.op != Some(op)
  }

  predicate Enabled(op: nat, st: State, step: Step) {
    match step
    case Do(name, outcome) => st.call.Some? && (!outcome.FailsBefore? ==> Guard(op, st, name))
    case PodStarts(id) => id !in st.pods && st.counts != ZERO
    case PodEnds(id) => id in st.pods
    case WriterCommits(_) => st.pods != {} && !st.maintenance.enabled
    case OtherEnters(o) => o != op && !st.maintenance.enabled
    case OtherLeaves => Foreign(op, st)
    case OtherChanges(_) => Foreign(op, st)
  }

  function Next(op: nat, st: State, step: Step): State
    requires Enabled(op, st, step)
  {
    match step
    case Do(name, outcome) =>
      if outcome.FailsBefore? then st.(call := None)
      else
        var done := Effect(op, st, name);
        done.(call := if outcome.FailsAfter? then None else After(done))
    case PodStarts(id) => st.(pods := st.pods + {id})
    case PodEnds(id) => st.(pods := st.pods - {id})
    case WriterCommits(s) => st.(source := s)
    case OtherEnters(o) => st.(maintenance := Maintenance(true, Some(o), st.maintenance.epoch + 1))
    case OtherLeaves => st.(maintenance := st.maintenance.(enabled := false))
    case OtherChanges(s) => st.(source := s)
  }

  // ---- The invariant ---------------------------------------------------------------------------------

  /** Who is down when a role is about to be scaled. */
  function Downed(r: Role): Counts {
    match r
    case Frontend => INTENDED
    case Api => INTENDED.(frontend := 0)
    case Worker => INTENDED.(frontend := 0, api := 0)
    case Stub => ZERO.(stub := 1)
  }

  function Upped(r: Role): Counts {
    match r
    case Stub => ZERO
    case Api => ZERO.(stub := 1)
    case Worker => ZERO.(stub := 1, api := 2)
    case Frontend => INTENDED.(frontend := 0)
  }

  /** Every entry so far is as it was frozen, and so is the source. */
  predicate Faithful(st: State) {
    st.source == st.plan && forall n :: n in st.archive ==> n in st.plan && st.archive[n] == st.plan[n]
  }

  predicate Held(op: nat, st: State) {
    Owned(op, st) && st.maintenance.epoch == st.epoch && st.counts == ZERO && st.pods == {}
  }

  predicate Fits(op: nat, st: State, call: Call) {
    match call
    case CheckTopology => st.maintenance.op != Some(op) && st.archive == map[] && !st.complete && !st.cold
    case Enter => st.maintenance.op != Some(op) && st.counts == INTENDED && st.archive == map[] && !st.complete && !st.cold
    case Down(r) =>
      && Owned(op, st) && st.maintenance.epoch == st.epoch && st.counts == Downed(r)
      && st.archive == map[] && !st.complete && !st.cold
    case AwaitDrained =>
      && Owned(op, st) && st.maintenance.epoch == st.epoch && st.counts == ZERO
      && st.archive == map[] && !st.complete && !st.cold
    case Freeze => Held(op, st) && st.archive == map[] && !st.complete && !st.cold
    case Export => Held(op, st) && Faithful(st) && !st.complete && !st.cold
    case Finish => Held(op, st) && Faithful(st) && st.archive.Keys == st.plan.Keys && !st.cold
    case VerifyCold => Held(op, st) && Faithful(st) && st.archive.Keys == st.plan.Keys && st.complete && !st.cold
    case AwaitAgain => Held(op, st) && Faithful(st) && st.archive.Keys == st.plan.Keys && st.complete && st.cold
    case Leave => Held(op, st) && Faithful(st) && st.archive.Keys == st.plan.Keys && st.complete && st.cold
    case Up(r) => !Owned(op, st) && st.counts == Upped(r) && st.complete && st.cold
  }

  /** What holds whoever is gone: the archive was verified before the fence was given back, and while
      the fence is held nothing has been scaled up. */
  predicate Safe(op: nat, st: State) {
    && (st.cold ==> st.complete && st.archive == st.plan)
    && (Owned(op, st) && st.call.None? ==> st.counts == ZERO || exists r: Role :: st.counts == Downed(r))
    && (st.maintenance.op == Some(op) && !st.maintenance.enabled ==> st.cold)
  }

  predicate Inv(op: nat, st: State) {
    Safe(op, st) && (st.call.Some? ==> Fits(op, st, st.call.value))
  }

  predicate Init(op: nat, st: State) {
    && st.call == Some(CheckTopology) && st.maintenance.op != Some(op)
    && st.archive == map[] && !st.complete && !st.cold
  }

  lemma InitInv(op: nat, st: State)
    requires Init(op, st)
    ensures Inv(op, st)
  {}

  lemma DoInv(op: nat, st: State, step: Step)
    requires Inv(op, st) && Enabled(op, st, step) && step.Do?
    ensures Inv(op, Next(op, st, step))
  {
    if step.outcome.FailsBefore? {
      GoneInv(op, st);
    } else {
      EffectInv(op, st, step.name);
      var done := Effect(op, st, step.name).(call := After(Effect(op, st, step.name)));
      hide Guard, Effect, After, Inv;
      GoneInv(op, done);
    }
  }

  /** A process that is gone leaves what it was to find. */
  lemma GoneInv(op: nat, st: State)
    requires Inv(op, st)
    ensures Inv(op, st.(call := None))
  {
    hide Faithful;
    if st.call.Some? && st.call.value.Down? { assert st.counts == Downed(st.call.value.role); }
    if st.call.Some? && st.call.value.Enter? { assert !Owned(op, st); }
  }

  lemma EffectInv(op: nat, st: State, name: string)
    requires Inv(op, st) && st.call.Some? && Guard(op, st, name)
    ensures var done := Effect(op, st, name); Inv(op, done.(call := After(done)))
  {
    var call := st.call.value;
    if call.Export? {
      ExportKeepsFaith(st, name);
    } else if call.VerifyCold? {
      WholeArchive(st);
    } else if call.Down? {
      DownStep(st.counts, call.role);
    } else if call.Enter? {
      assert st.counts == Downed(Frontend);
    }
    if !call.Freeze? { hide Faithful; }
  }

  lemma DownStep(c: Counts, r: Role)
    requires c == Downed(r)
    ensures match r
            case Frontend => c.With(r, 0) == Downed(Api)
            case Api => c.With(r, 0) == Downed(Worker)
            case Worker => c.With(r, 0) == Downed(Stub)
            case Stub => c.With(r, 0) == ZERO
  {}

  lemma ExportKeepsFaith(st: State, name: string)
    requires Faithful(st) && name in st.source
    ensures Faithful(st.(archive := st.archive[name := st.source[name]]))
  {}

  lemma WholeArchive(st: State)
    requires Faithful(st) && st.archive.Keys == st.plan.Keys
    ensures st.archive == st.plan
  {}

  lemma WorldInv(op: nat, st: State, step: Step)
    requires Inv(op, st) && Enabled(op, st, step) && !step.Do?
    ensures Inv(op, Next(op, st, step))
  {}

  predicate Runs(op: nat, st: State, steps: seq<Step>, end: State)
    decreases |steps|
  {
    if steps == [] then st == end
    else Enabled(op, st, steps[0]) && Runs(op, Next(op, st, steps[0]), steps[1..], end)
  }

  lemma {:induction false} RunInv(op: nat, st: State, steps: seq<Step>, end: State)
    requires Inv(op, st) && Runs(op, st, steps, end)
    ensures Inv(op, end)
    decreases |steps|
  {
    if steps != [] {
      if steps[0].Do? { DoInv(op, st, steps[0]); } else { WorldInv(op, st, steps[0]); }
      hide Inv, Enabled, Next;
      RunInv(op, Next(op, st, steps[0]), steps[1..], end);
    }
  }

  /** Whatever has become of a backup: while its fence is held and it is gone no role has been scaled up,
      and the fence is only given back with an archive of everything frozen, verified cold. */
  lemma FenceTellsState(op: nat, st: State, steps: seq<Step>, end: State)
    requires Init(op, st) && Runs(op, st, steps, end)
    ensures end.call.None? && Owned(op, end) ==> end.counts == ZERO || exists r: Role :: end.counts == Downed(r)
    ensures end.maintenance.op == Some(op) && !end.maintenance.enabled ==>
              end.complete && end.cold && end.archive == end.plan
  {
    InitInv(op, st);
    RunInv(op, st, steps, end);
    hide Runs;
  }

  // ---- Failures --------------------------------------------------------------------------------------

  /** The call takes the backup out of the steps between entering and leaving maintenance: it fails once
      the fence has been entered and before it has been left. */
  predicate FailsInside(call: Call, outcome: Outcome) {
    match call
    case CheckTopology => false
    case Enter => outcome.FailsAfter?
    case Leave => outcome.FailsBefore?
    case Up(_) => false
    case _ => !outcome.Completes?
  }

  /** What a gone backup has left: its fence with what it guards, or no fence of its own. */
  predicate Left(op: nat, st: State, end: State) {
    && end.call.None? && (Owned(op, end) <==> Owned(op, st))
    && (Owned(op, st) ==> end.maintenance == st.maintenance && end.counts == st.counts && end.source == st.source)
  }

  lemma LeftStays(op: nat, st: State, step: Step)
    requires st.call.None? && Enabled(op, st, step)
    ensures Left(op, st, Next(op, st, step))
  {}

  lemma {:induction false} GoneLeavesFence(op: nat, st: State, steps: seq<Step>, end: State)
    requires st.call.None? && Runs(op, st, steps, end)
    ensures Left(op, st, end)
    decreases |steps|
  {
    if steps != [] {
      LeftStays(op, st, steps[0]);
      hide Enabled, Next;
      GoneLeavesFence(op, Next(op, st, steps[0]), steps[1..], end);
    }
  }

  /** The fence is owned from entering to leaving. */
  lemma OwnedByCall(op: nat, st: State)
    requires Inv(op, st) && st.call.Some?
    ensures Owned(op, st) <==> !(st.call.value.CheckTopology? || st.call.value.Enter? || st.call.value.Up?)
    ensures Owned(op, st) ==> st.maintenance.epoch == st.epoch
  {
    hide Safe, Faithful;
  }

  lemma EffectOwned(op: nat, st: State, name: string)
    requires Inv(op, st) && st.call.Some? && Guard(op, st, name)
    ensures var call, done := st.call.value, Effect(op, st, name);
      && (Owned(op, done) <==> !(call.CheckTopology? || call.Leave? || call.Up?))
      && done.source == st.source && done.call == st.call
      && (Owned(op, done) ==>
            done.maintenance.epoch == done.epoch == if call.Enter? then st.maintenance.epoch + 1 else st.epoch)
  {
    OwnedByCall(op, st);
    hide Inv, Guarded;
  }

  /** The step that ends a backup leaves the fence exactly when it fails inside of it. */
  lemma EndOfCalls(op: nat, st: State, step: Step)
    requires Inv(op, st) && Enabled(op, st, step) && step.Do? && Next(op, st, step).call.None?
    ensures var end := Next(op, st, step);
      && (Owned(op, end) <==> FailsInside(st.call.value, step.outcome))
      && (Owned(op, end) ==>
            && end.source == st.source
            && end.maintenance.epoch == end.epoch == if st.call.value.Enter? then st.maintenance.epoch + 1 else st.epoch)
  {
    hide Inv, Guard, Effect;
    OwnedByCall(op, st);
    if !step.outcome.FailsBefore? { EffectOwned(op, st, step.name); }
  }

  /** A backup that ends leaves its maintenance held, for good, exactly when it fails between entering and
      leaving it; then nobody enters, writes or scales up behind it, whatever else happens. */
  lemma FailureStaysFenced(op: nat, st: State, before: seq<Step>, mid: State, step: Step, after: seq<Step>, end: State)
    requires Init(op, st) && Runs(op, st, before, mid) && Enabled(op, mid, step)
    requires step.Do? && Next(op, mid, step).call.None? && Runs(op, Next(op, mid, step), after, end)
    ensures Owned(op, end) <==> FailsInside(mid.call.value, step.outcome)
    ensures Owned(op, end) ==>
              && end.maintenance.epoch == (if mid.call.value.Enter? then mid.maintenance.epoch + 1 else mid.epoch)
              && end.source == mid.source
              && end.counts == Next(op, mid, step).counts
              && (end.counts == ZERO || exists r: Role :: end.counts == Downed(r))
    ensures mid.call.value.Leave? || mid.call.value.Up? ==> mid.cold && mid.archive == mid.plan
  {
    InitInv(op, st);
    RunInv(op, st, before, mid);
    EndOfCalls(op, mid, step);
    DoInv(op, mid, step);
    GoneLeavesFence(op, Next(op, mid, step), after, end);
    hide Runs, Enabled, Next;
  }

  /** At the call that gives the fence back the archive holds what the stores hold, no writer runs, and
      nothing else could have changed them since they were frozen. */
  lemma LeavesWithWholeSource(op: nat, st: State, steps: seq<Step>, end: State)
    requires Init(op, st) && Runs(op, st, steps, end) && end.call == Some(Leave)
    ensures end.archive == end.source == end.plan && end.complete && end.cold
    ensures end.pods == {} && end.counts == ZERO && Owned(op, end) && end.maintenance.epoch == end.epoch
  {
    InitInv(op, st);
    RunInv(op, st, steps, end);
    WholeArchive(end);
    hide Runs;
  }

  /** The backup that completes its last call leaves every role at the count it had. */
  lemma SuccessRestoresCounts(op: nat, st: State, steps: seq<Step>, end: State, step: Step)
    requires Init(op, st) && Runs(op, st, steps, end) && Enabled(op, end, step)
    requires end.call == Some(Up(Frontend)) && step.Do? && step.outcome.Completes?
    ensures Next(op, end, step).counts == INTENDED && Next(op, end, step).call.None?
    ensures end.archive == end.plan && end.cold
  {
    InitInv(op, st);
    RunInv(op, st, steps, end);
    hide Runs;
  }
}
