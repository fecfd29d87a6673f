/** One batch of documents handed to a queue that would accept it twice: the intent is saved before
    the request is made, and a run that does not know the outcome goes no further by itself. */
module AtMostOnce {
  import opened Options

  datatype Status = Planned | Prepared | Verified | Published | Failed | RolledBack

  datatype Entry = Entry(doc: string, oldVersion: string, status: Status)

  datatype Submission = NotSent | Uncertain | Sent

  datatype Manifest = Manifest(documents: seq<Entry>, target: string, projection: int,
                               job: Option<nat>, submission: Submission)

  /** A job as the queue reports it. */
  datatype Job = Job(bulk: bool, docs: seq<string>, ended: bool)

  function DocsOf(es: seq<Entry>): seq<string> {
    if es == [] then [] else [es[0].doc] + DocsOf(es[1..])
  }

  function PendingDocs(es: seq<Entry>): seq<string> {
    if es == [] then []
    else (if es[0].status.Planned? then [es[0].doc] else []) + PendingDocs(es[1..])
  }

  /** Before anything is sent, either all documents are still planned or none is. */
  predicate Uniform(es: seq<Entry>) {
    (forall i :: 0 <= i < |es| ==> es[i].status.Planned?) || NothingPlanned(es)
  }

  predicate NothingPlanned(es: seq<Entry>) { forall i :: 0 <= i < |es| ==> !es[i].status.Planned? }

  lemma {:induction false} NothingPending(es: seq<Entry>)
    ensures PendingDocs(es) == [] ==> NothingPlanned(es)
  {
    if es != [] { NothingPending(es[1..]); }
  }

  lemma {:induction false} AllPending(es: seq<Entry>)
    requires Uniform(es)
    ensures PendingDocs(es) == [] || PendingDocs(es) == DocsOf(es)
  {
    if es != [] {
      AllPending(es[1..]);
      if es[0].status.Planned? { AllPlanned(es); } else { NonePlanned(es); }
    }
  }

  lemma {:induction false} AllPlanned(es: seq<Entry>)
    requires forall i :: 0 <= i < |es| ==> es[i].status.Planned?
    ensures PendingDocs(es) == DocsOf(es)
  {
    if es != [] { AllPlanned(es[1..]); }
  }

  lemma {:induction false} NonePlanned(es: seq<Entry>)
    requires forall i :: 0 <= i < |es| ==> !es[i].status.Planned?
    ensures PendingDocs(es) == []
  {
    if es != [] { NonePlanned(es[1..]); }
  }

  /** What the backend answers during one run; `None` is a rejection or no answer. */
  datatype Api = Api(version: string, structured: bool, projection: int,
                     document: string -> Option<string>, job: nat -> Option<Job>, submit: Option<nat>)

  predicate Unchanged(es: seq<Entry>, api: Api) {
    forall i :: 0 <= i < |es| ==>
      es[i].status.Planned? ==> api.document(es[i].doc) == Some(es[i].oldVersion)
  }

  /** The backend takes the structural route this manifest was planned for. */
  predicate RouteFits(m: Manifest, api: Api) {
    api.version == m.target && api.structured && api.projection == 1
  }

  /** A batch is sent: nothing was before, and the planned documents are as they were. */
  predicate Sends(m: Manifest, api: Api) {
    && m.submission.NotSent? && m.projection == 1 && m.job.None? && RouteFits(m, api)
    && PendingDocs(m.documents) != [] && Unchanged(m.documents, api)
  }

  /** A batch ends well without sending: its job is known, or there is nothing left to send. */
  predicate Passes(m: Manifest, api: Api) {
    && !m.submission.Uncertain? && m.projection == 1
    && if m.job.Some? then api.job(m.job.value).Some? else RouteFits(m, api) && PendingDocs(m.documents) == []
  }

  function Intent(m: Manifest): Manifest { m.(submission := Uncertain) }

  function Recorded(m: Manifest, job: nat): Manifest { m.(job := Some(job), submission := Sent) }

  /** What reconciliation finds: a new status for each entry that gets one, unless it is refused. */
  type Findings = Option<string -> Option<Status>>

  function Reconciled(es: seq<Entry>, find: string -> Option<Status>): (r: seq<Entry>)
    ensures DocsOf(r) == DocsOf(es)
  {
    if es == [] then []
    else
      var s := find(es[0].doc);
      [if s.Some? && !s.value.Planned? then es[0].(status := s.value) else es[0]] + Reconciled(es[1..], find)
  }

  datatype Outcome = Ended | Raised | Crashed

  /** What the durable manifest and the requests made so far have in common. */
  predicate Kept(disk: Manifest, posted: seq<seq<string>>) {
    && |posted| <= 1
    && (disk.submission.NotSent? ==> posted == [] && disk.job.None? && Uniform(disk.documents))
    && (disk.submission.Uncertain? ==> disk.job.None?)
    && (disk.submission.Sent? ==> disk.job.Some?)
    && (posted != [] ==> posted[0] == DocsOf(disk.documents))
  }

  class Migration {
    var disk: Manifest               // the saved manifest
    var posted: seq<seq<string>>     // the requests made to the queue, answered or not

    predicate Valid() reads this { Kept(disk, posted) }

    /** A planned run, saved by a dry run. */
    constructor (documents: seq<Entry>, target: string)
      requires forall i :: 0 <= i < |documents| ==> documents[i].status.Planned?
      ensures Valid() && disk == Manifest(documents, target, 1, None, NotSent) && posted == []
    {
      disk, posted := Manifest(documents, target, 1, None, NotSent), [];
    }

    /** Apply the batch of a manifest in memory. `crash` is the number of saves and requests the
        process lives to make; `trace` are the steps it takes. */
    method ApplyBatch(manifest: Manifest, api: Api, crash: nat, ghost phase: Phase)
        returns (next: Manifest, job: Option<Job>, outcome: Outcome, ghost trace: seq<Step>)
      requires Valid() && manifest == disk && (phase.Loaded? || phase.Adopted?)
      modifies this
      ensures Valid() && next.documents == manifest.documents && next.target == manifest.target
      ensures outcome.Ended? ==> next == disk && next.projection == 1
      ensures disk == manifest || disk == Intent(manifest)
           || (api.submit.Some? && disk == Recorded(manifest, api.submit.value))
      ensures posted != old(posted) <==> Sends(manifest, api) && crash >= 2
      ensures posted != old(posted) ==> posted == old(posted) + [DocsOf(manifest.documents)]
      ensures disk != old(disk) <==> Sends(manifest, api) && crash >= 1
      ensures manifest.submission.Uncertain? ==> outcome.Raised?
      ensures outcome.Ended? <==> Passes(manifest, api) || (Sends(manifest, api) && crash >= 3 && api.submit.Some?)
      ensures outcome.Ended? ==> !disk.submission.Uncertain?
      ensures outcome.Ended? && disk.submission.NotSent? ==> NothingPlanned(disk.documents)
      ensures Runs(State(old(disk), old(posted), map[SELF := Proc(manifest, phase)]), trace,
                   State(disk, posted, if outcome.Ended? then map[SELF := Proc(next, Done)] else map[]), true)
    {
      hide Unchanged, RouteFits, Runs;
      ghost var start := State(disk, posted, map[SELF := Proc(manifest, phase)]);
      ghost var stopped := EndStep(start);
      next, job, outcome, trace := manifest, None, Raised, [End(SELF)];
      if manifest.submission.Uncertain? { return; }
      if manifest.projection != 1 { return; }
      if manifest.job.Some? {
        job := api.job(manifest.job.value);
        if job.None? { return; }
        outcome, trace := Ended, [Pass(SELF, api)];
        stopped := OneStep(start, Pass(SELF, api));
        assert stopped.procs == map[SELF := Proc(next, Done)];
        return;
      }
      if !RouteFits(manifest, api) { return; }
      AllPending(manifest.documents);
      var pending := PendingDocs(manifest.documents);
      if pending == [] {
        NothingPending(manifest.documents);
        outcome, trace := Ended, [Pass(SELF, api)];
        stopped := OneStep(start, Pass(SELF, api));
        assert stopped.procs == map[SELF := Proc(next, Done)];
        return;
      }
      if !Unchanged(manifest.documents, api) { return; }
      outcome := Crashed;
      if crash == 0 { return; }
      ghost var steps := [Intend(SELF, api)];
      ghost var st := OneStep(start, Intend(SELF, api));
      next := Intent(next);
      disk := next;
      trace := steps + [End(SELF)];
      stopped := MoreSteps(start, steps, st, End(SELF));
      if crash == 1 { return; }
      posted := posted + [pending];
      if api.submit.None? {
        outcome, trace := Raised, steps + [Post(SELF, None)];
        stopped := MoreSteps(start, steps, st, Post(SELF, None));
        return;
      }
      st := MoreSteps(start, steps, st, Post(SELF, api.submit));
      steps := steps + [Post(SELF, api.submit)];
      next := Recorded(next, api.submit.value);
      trace := steps + [End(SELF)];
      stopped := MoreSteps(start, steps, st, End(SELF));
      if crash == 2 { return; }
      disk := next;
      job := Some(Job(true, pending, false));
      outcome, trace := Ended, steps + [Record(SELF)];
      stopped := MoreSteps(start, steps, st, Record(SELF));
      assert stopped.procs == map[SELF := Proc(next, Done)];
    }

    /** One run of the script on the saved manifest: if it is to `apply`, reconciliation with an explicit
        job, the batch, and the observation of what became of the documents; in any case the manifest
        is saved last, if the process `lives`. */
    method Resume(apply: bool, jobId: Option<nat>, api: Api, findings: Findings, crash: nat, lives: bool)
        returns (outcome: Outcome, ghost trace: seq<Step>)
      requires Valid()
      modifies this
      ensures Valid() && DocsOf(disk.documents) == old(DocsOf(disk.documents))
      ensures |posted| <= |old(posted)| + 1
      ensures posted != old(posted) ==> apply && Sends(old(disk), api) && jobId.None?
      ensures !apply ==> disk == old(disk)
      ensures old(disk).submission.Uncertain? && !disk.submission.Uncertain? ==>
                apply && jobId.Some? && disk.job == jobId && Matches(old(disk), api.job(jobId.value))
      ensures apply && old(disk).submission.Uncertain? && jobId.None? ==> outcome.Raised? && disk == old(disk)
      ensures !old(disk).submission.NotSent? ==> !disk.submission.NotSent?
      ensures Runs(State(old(disk), old(posted), map[]), trace, State(disk, posted, map[]), true)
    {
      hide Runs, Passes;
      var manifest := disk;
      var spent := 0;
      ghost var start := State(disk, posted, map[]);
      ghost var st := OneStep(start, Load(SELF));
      trace := [Load(SELF)];
      if !apply {
        ghost var last := if lives then Rewrite(SELF) else End(SELF);
        st := MoreSteps(start, trace, st, last);
        trace := trace + [last];
        assert st.procs == map[];
        return if lives then Ended else Crashed, trace;
      }
      if jobId.Some? {
        if !Matches(manifest, api.job(jobId.value)) || crash == 0 {
          st := MoreSteps(start, trace, st, End(SELF));
          outcome := if Matches(manifest, api.job(jobId.value)) then Crashed else Raised;
          trace := trace + [End(SELF)];
          return;
        }
        st := MoreSteps(start, trace, st, Adopt(SELF, jobId.value, api));
        trace := trace + [Adopt(SELF, jobId.value, api)];
        manifest := Recorded(manifest, jobId.value);
        disk := manifest;
        spent := 1;
      }
      var job;
      ghost var batch;
      assert st == State(disk, posted, map[SELF := Proc(manifest, st.procs[SELF].phase)]);
      manifest, job, outcome, batch := ApplyBatch(manifest, api, crash - spent, st.procs[SELF].phase);
      ghost var mid := State(disk, posted, if outcome.Ended? then map[SELF := Proc(manifest, Done)] else map[]);
      RunsJoin(start, trace, st, batch, mid);
      trace := trace + batch;
      if !outcome.Ended? { return; }
      if findings.None? || !lives {
        st := MoreSteps(start, trace, mid, End(SELF));
        trace := trace + [End(SELF)];
        return if findings.None? then Raised else Crashed, trace;
      }
      ReconciledUniform(manifest.documents, findings.value);
      st := MoreSteps(start, trace, mid, Finish(SELF, findings.value));
      trace := trace + [Finish(SELF, findings.value)];
      disk := manifest.(documents := Reconciled(manifest.documents, findings.value));
    }
  }

  /** The job named by hand is the one this run would have made. */
  predicate Matches(manifest: Manifest, job: Option<Job>) {
    job.Some? && job.value.bulk && job.value.docs == DocsOf(manifest.documents)
  }

  lemma {:induction false} ReconciledUniform(es: seq<Entry>, find: string -> Option<Status>)
    ensures |Reconciled(es, find)| == |es|
    ensures NothingPlanned(es) ==> NothingPlanned(Reconciled(es, find))
  {
    if es != [] { ReconciledUniform(es[1..], find); }
  }

  // ---- Any number of runs ------------------------------------------------------------------------------

  /** One run of the script. */
  datatype Try = Try(apply: bool, jobId: Option<nat>, api: Api, findings: Findings, crash: nat, lives: bool)

  /** However often a manifest is resumed, whatever is lost or crashes, one run after another the
      queue is asked at most once, for exactly the planned documents. */
  method ResumeAgain(m: Migration, tries: seq<Try>)
    requires m.Valid()
    modifies m
    ensures m.Valid() && |m.posted| <= 1 && old(m.posted) <= m.posted
    ensures m.posted != [] ==> m.posted[0] == old(DocsOf(m.disk.documents))
    ensures old(m.disk.submission) != NotSent ==> m.posted == old(m.posted)
  {
    var i := 0;
    while i < |tries|
      invariant 0 <= i <= |tries| && m.Valid() && old(m.posted) <= m.posted
      invariant DocsOf(m.disk.documents) == old(DocsOf(m.disk.documents))
      invariant old(m.disk.submission) != NotSent ==> m.disk.submission != NotSent && m.posted == old(m.posted)
    {
      var t := tries[i];
      var outcome, _ := m.Resume(t.apply, t.jobId, t.api, t.findings, t.crash, t.lives);
      i := i + 1;
    }
  }

  // ---- Runs that overlap --------------------------------------------------------------------------------

  /** How far a process has come: it has loaded the manifest, saved the job it was given, saved its
      intent, has its answer, or is past the batch. */
  datatype Phase = Loaded | Adopted | Intending | Answered | Done

  datatype Proc = Proc(manifest: Manifest, phase: Phase)

  datatype State = State(disk: Manifest, posted: seq<seq<string>>, procs: map<nat, Proc>)

  /** What one process does between two other ones: load, save the job given by hand, save its intent,
      make the request, save the answer, go past the batch, save what was found, save what it has loaded
      as it is, or end. */
  datatype Step =
    | Load(id: nat)
    | Adopt(id: nat, job: nat, api: Api)
    | Intend(id: nat, api: Api)
    | Post(id: nat, answer: Option<nat>)
    | Record(id: nat)
    | Pass(id: nat, api: Api)
    | Finish(id: nat, find: string -> Option<Status>)
    | Rewrite(id: nat)
    | End(id: nat)

  /** The process of a run that is alone. */
  const SELF: nat := 0

  predicate Enabled(st: State, step: Step) {
    if step.Load? then step.id !in st.procs
    else
      && step.id in st.procs
      && var p := st.procs[step.id];
        match step
        case Adopt(_, job, api) => p.phase.Loaded? && Matches(p.manifest, api.job(job))
        case Intend(_, api) => (p.phase.Loaded? || p.phase.Adopted?) && Sends(p.manifest, api)
        case Pass(_, api) => (p.phase.Loaded? || p.phase.Adopted?) && Passes(p.manifest, api)
        case Post(_, _) => p.phase.Intending?
        case Record(_) => p.phase.Answered?
        case Finish(_, _) => p.phase.Done?
        case Rewrite(_) => p.phase.Loaded?
        case End(_) => true
  }

  function Next(st: State, step: Step): State
    requires Enabled(st, step)
  {
    match step
    case Load(id) => st.(procs := st.procs[id := Proc(st.disk, Loaded)])
    case Adopt(id, job, _) => Saved(st, id, Recorded(st.procs[id].manifest, job), Adopted)
    case Intend(id, _) => Saved(st, id, Intent(st.procs[id].manifest), Intending)
    case Post(id, answer) =>
      var m := st.procs[id].manifest;
      st.(posted := st.posted + [PendingDocs(m.documents)],
          procs := if answer.Some? then st.procs[id := Proc(Recorded(m, answer.value), Answered)] else st.procs - {id})
    case Record(id) => Saved(st, id, st.procs[id].manifest, Done)
    case Pass(id, _) => st.(procs := st.procs[id := Proc(st.procs[id].manifest, Done)])
    case Finish(id, find) =>
      var m := st.procs[id].manifest;
      st.(disk := m.(documents := Reconciled(m.documents, find)), procs := st.procs - {id})
    case Rewrite(id) => st.(disk := st.procs[id].manifest, procs := st.procs - {id})
    case End(id) => st.(procs := st.procs - {id})
  }

  function Saved(st: State, id: nat, m: Manifest, phase: Phase): State {
    st.(disk := m, procs := st.procs[id := Proc(m, phase)])
  }

  /** A run is alone if no process loads the manifest while another one is at work. */
  predicate Runs(st: State, steps: seq<Step>, end: State, alone: bool)
    decreases |steps|
  {
    if steps == [] then st == end
    else
      && Enabled(st, steps[0]) && (alone && steps[0].Load? ==> st.procs == map[])
      && Runs(Next(st, steps[0]), steps[1..], end, alone)
  }

  lemma {:induction false} RunsJoin(st: State, steps: seq<Step>, mid: State, more: seq<Step>, end: State)
    requires Runs(st, steps, mid, true) && Runs(mid, more, end, true)
    ensures Runs(st, steps + more, end, true)
    decreases |steps|
  {
    if steps == [] {
      assert steps + more == more;
    } else {
      RunsJoin(Next(st, steps[0]), steps[1..], mid, more, end);
      assert (steps + more)[1..] == steps[1..] + more;
    }
  }

  lemma OneStep(st: State, step: Step) returns (end: State)
    requires Enabled(st, step) && (step.Load? ==> st.procs == map[])
    ensures end == Next(st, step) && Runs(st, [step], end, true)
  {
    end := Next(st, step);
    assert [step][1..] == [];
    hide Enabled, Next;
    assert Runs(end, [step][1..], end, true);
  }

  lemma MoreSteps(st: State, steps: seq<Step>, mid: State, step: Step) returns (end: State)
    requires Runs(st, steps, mid, true) && Enabled(mid, step) && !step.Load?
    ensures end == Next(mid, step) && Runs(st, steps + [step], end, true)
    ensures step == End(SELF) && mid.procs.Keys == {SELF} ==> end.procs == map[]
  {
    end := OneStep(mid, step);
    RunsJoin(st, steps, mid, [step], end);
  }

  lemma EndStep(st: State) returns (end: State)
    requires st.procs.Keys == {SELF}
    ensures end == st.(procs := map[]) && Runs(st, [End(SELF)], end, true)
  {
    end := OneStep(st, End(SELF));
    assert end.procs == map[];
  }

  /** What a process that is alone has in common with the saved manifest. */
  predicate InStep(p: Proc, disk: Manifest, posted: seq<seq<string>>) {
    match p.phase
    case Loaded => p.manifest == disk
    case Adopted => p.manifest == disk && disk.submission.Sent?
    case Intending =>
      p.manifest == disk && disk.submission.Uncertain? && posted == []
      && PendingDocs(disk.documents) == DocsOf(disk.documents)
    case Answered => disk.submission.Uncertain? && p.manifest.job.Some? && p.manifest == Recorded(disk, p.manifest.job.value)
    case Done => p.manifest == disk && (disk.submission.NotSent? ==> NothingPlanned(disk.documents))
  }

  predicate Single(st: State) {
    && Kept(st.disk, st.posted)
    && (forall i, j :: i in st.procs && j in st.procs ==> i == j)
    && (forall i :: i in st.procs ==> InStep(st.procs[i], st.disk, st.posted))
  }

  lemma SingleStep(st: State, step: Step)
    requires Single(st) && Enabled(st, step) && (step.Load? ==> st.procs == map[])
    ensures Single(Next(st, step))
  {
    if !step.Load? {
      var p := st.procs[step.id];
      NothingPending(p.manifest.documents);
      if st.disk.submission.NotSent? { AllPending(st.disk.documents); }
      if step.Finish? { ReconciledUniform(p.manifest.documents, step.find); }
    }
    hide DocsOf, PendingDocs, Reconciled, Unchanged, RouteFits;
  }

  /** As long as each run is alone from its load to its end, whatever steps it gets to, at most one
      request is made, and what is saved fits it. */
  lemma {:induction false} AloneKeepsSingle(st: State, steps: seq<Step>, end: State)
    requires Single(st) && Runs(st, steps, end, true)
    ensures Single(end)
    decreases |steps|
  {
    if steps != [] {
      SingleStep(st, steps[0]);
      hide Single, Enabled, Next;
      AloneKeepsSingle(Next(st, steps[0]), steps[1..], end);
    }
  }

  // ---- When two requests are possible --------------------------------------------------------------------

  /** The manifest may still be sent: something is planned, and no document was planned twice from
      different versions. */
  predicate Unsent(m: Manifest) {
    && m.submission.NotSent? && m.projection == 1 && m.job.None? && PendingDocs(m.documents) != []
    && forall i, j :: 0 <= i < j < |m.documents| && PlannedTwice(m.documents[i], m.documents[j]) ==>
                        m.documents[i].oldVersion == m.documents[j].oldVersion
  }

  predicate PlannedTwice(e: Entry, f: Entry) { e.doc == f.doc && e.status.Planned? && f.status.Planned? }

  function OldVersion(es: seq<Entry>, doc: string): Option<string> {
    if es == [] then None
    else if es[0].doc == doc && es[0].status.Planned? then Some(es[0].oldVersion)
    else OldVersion(es[1..], doc)
  }

  lemma {:induction false} OldVersionAt(es: seq<Entry>, i: nat)
    requires i < |es| && es[i].status.Planned?
    requires forall j, k :: 0 <= j < k < |es| && PlannedTwice(es[j], es[k]) ==> es[j].oldVersion == es[k].oldVersion
    ensures OldVersion(es, es[i].doc) == Some(es[i].oldVersion)
  {
    if i > 0 {
      assert PlannedTwice(es[0], es[i]) ==> es[0].oldVersion == es[i].oldVersion;
      OldVersionAt(es[1..], i - 1);
    }
  }

  /** The backend that has all documents as they were planned. */
  function Cooperative(m: Manifest): Api {
    Api(m.target, true, 1, doc => OldVersion(m.documents, doc), j => None, None)
  }

  lemma UnsentIff(m: Manifest)
    ensures Unsent(m) ==> Sends(m, Cooperative(m))
    ensures (exists api :: Sends(m, api)) ==> Unsent(m)
  {
    if Unsent(m) {
      forall i | 0 <= i < |m.documents| && m.documents[i].status.Planned?
        ensures OldVersion(m.documents, m.documents[i].doc) == Some(m.documents[i].oldVersion)
      {
        OldVersionAt(m.documents, i);
      }
    }
  }

  /** No process has sent or can send anything. */
  predicate Silent(st: State) {
    && st.posted == [] && !Unsent(st.disk)
    && forall i :: i in st.procs ==> SilentProc(st.procs[i])
  }

  predicate SilentProc(p: Proc) {
    && !Unsent(p.manifest) && !p.phase.Intending? && !p.phase.Answered?
    && (p.phase.Done? && p.manifest.submission.NotSent? && p.manifest.job.None? ==> PendingDocs(p.manifest.documents) == [])
  }

  lemma SilentStep(st: State, step: Step)
    requires Silent(st) && Enabled(st, step)
    ensures Silent(Next(st, step))
  {
    if !step.Load? {
      var m := st.procs[step.id].manifest;
      UnsentIff(m);
      if step.Finish? {
        var done := Reconciled(m.documents, step.find);
        NothingPending(m.documents);
        ReconciledUniform(m.documents, step.find);
        if NothingPlanned(done) { NonePlanned(done); }
      }
    }
    hide DocsOf, PendingDocs, Reconciled, Unchanged, RouteFits, PlannedTwice;
  }

  lemma {:induction false} SilentRuns(st: State, steps: seq<Step>, end: State)
    requires Silent(st) && Runs(st, steps, end, false)
    ensures Silent(end)
    decreases |steps|
  {
    if steps != [] {
      SilentStep(st, steps[0]);
      hide Silent, Enabled, Next;
      SilentRuns(Next(st, steps[0]), steps[1..], end);
    }
  }

  /** Two processes that load one unsent manifest one after the other and then send it in turn. */
  lemma TwoSend(m: Manifest, api: Api) returns (steps: seq<Step>, end: State)
    requires Sends(m, api)
    ensures Runs(State(m, [], map[]), steps, end, false)
    ensures end.posted == [PendingDocs(m.documents), PendingDocs(m.documents)]
  {
    var s0 := State(m, [], map[]);
    var s1 := Next(s0, Load(1));
    var s2 := Next(s1, Load(2));
    var s3 := Next(s2, Intend(1, api));
    var s4 := Next(s3, Intend(2, api));
    var s5 := Next(s4, Post(1, None));
    end := Next(s5, Post(2, None));
    steps := [Load(1), Load(2), Intend(1, api), Intend(2, api), Post(1, None), Post(2, None)];
    hide Sends;
    assert steps[1..][1..][1..][1..][1..][1..] == [];
    assert Runs(end, steps[1..][1..][1..][1..][1..][1..], end, false);
    assert Runs(s5, steps[1..][1..][1..][1..][1..], end, false);
    assert Runs(s4, steps[1..][1..][1..][1..], end, false);
    assert Runs(s3, steps[1..][1..][1..], end, false);
    assert Runs(s2, steps[1..][1..], end, false);
    assert Runs(s1, steps[1..], end, false);
    assert end.posted == [PendingDocs(m.documents), PendingDocs(m.documents)];
    assert Runs(s0, steps, end, false);
  }

  /** Nothing locks the manifest: the bound needs runs that do not overlap. When each is alone from
      its load to its end, at most one request is made; when they may overlap two can be made exactly
      when the manifest is one that may still be sent. */
  lemma OverlapPostsTwice(m: Manifest)
    requires Kept(m, [])
    ensures var st := State(m, [], map[]);
      && (forall steps, end :: Runs(st, steps, end, true) ==> |end.posted| <= 1)
      && ((exists steps, end :: Runs(st, steps, end, false) && |end.posted| == 2) <==> Unsent(m))
  {
    var st := State(m, [], map[]);
    forall steps, end | Runs(st, steps, end, true) ensures |end.posted| <= 1 {
      AloneKeepsSingle(st, steps, end);
    }
    UnsentIff(m);
    if Unsent(m) {
      var steps, end := TwoSend(m, Cooperative(m));
      assert |end.posted| == 2;
    } else {
      forall steps, end | Runs(st, steps, end, false) ensures end.posted == [] {
        SilentRuns(st, steps, end);
      }
    }
  }
}
