/** The delivery protocol as a whole: sender, receiver, a network anyone may write to, and
    crashes between any two effects.

    The network is the set of MACs ever made.  A message may arrive, at any time and any number
    of times, whenever its MAC is under another key or has been made before; so a message may be
    lost, repeated, delayed, reordered, or assembled from pieces of others. */
module AlertDelivery {
  import opened Options
  import opened AlertProtocol
  import S = AlertSender
  import R = AlertReceiver

  /** `acked` is the history of events whose acknowledgement reached the journal, `run` the
      event a live run has in hand, `used` the identifiers given out. */
  datatype System = System(disk: S.Disk, run: Option<Event>, rows: seq<R.Row>, macs: set<Mac>,
                           acked: seq<Event>, used: set<string>)

  datatype Step =
    | Begin(current: Health, endpoint: string, id: string, write: S.Write)
    | Transmit(stamp: int)
    | Receive(http: R.Http, now: int, fault: R.Fault)
    | Finish(reply: S.Reply, ackWrite: S.Write)
    | Crash(markerBack: bool)

  const INIT := System(S.Disk(None, false), None, [], {}, [], {})

  ghost predicate Derivable(key: nat, st: System, m: Mac) { m.key != key || m in st.macs }

  /** The file lock lets one run live at a time; identifiers are never given out twice. */
  ghost predicate Enabled(key: nat, st: System, step: Step) {
    match step
    case Begin(current, _, id, _) => st.run.None? && id !in st.used && current.Coherent()
    case Transmit(_) => st.run.Some?
    case Receive(http, _, _) => Derivable(key, st, http.signed.mac)
    case Finish(reply, _) => st.run.Some? && !st.disk.marker
                             && (reply.Reply? ==> Derivable(key, st, reply.ack.mac))
    case Crash(_) => true
  }

  ghost function Next(key: nat, st: System, step: Step): System
    requires Enabled(key, st, step)
  {
    match step
    case Begin(current, endpoint, id, write) =>
      (match S.PlanRun(st.disk, current, endpoint, key, id)
       case Refused => st
       case Quiet => st
       case Resume(e) => st.(run := Some(e))
       case Create(e, next) =>
         st.(disk := S.Persist(st.disk, next, write), used := st.used + {id},
             run := if write.Written? then Some(e) else None))
    case Transmit(stamp) =>
      st.(macs := st.macs + {SignEvent(Encode(st.run.value), key, stamp).mac})
    case Receive(http, now, fault) =>
      var answer := R.AnswerTo(st.rows, http, key, now, fault);
      st.(rows := R.RowsAfter(st.rows, http, key, now, fault),
          macs := st.macs + if answer.Acknowledged? then {answer.ack.mac} else {})
    case Finish(reply, write) =>
      if S.Acknowledges(st.run.value, reply, key) && st.disk.journal.Some? then
        var done := S.Completed(st.disk.journal.value.authority, st.run.value);
        st.(disk := S.Persist(st.disk, done, write), run := None,
            acked := if write.Replaced? || write.Written? then st.acked + [st.run.value]
                     else st.acked)
      else st.(run := None)
    case Crash(markerBack) =>
      st.(run := None, disk := st.disk.(marker := st.disk.marker || markerBack))
  }

  // ---- What every reachable state keeps ----------------------------------------------------------

  ghost function RowOf(e: Event): R.Row { R.Row(e.id, BodyDigest(Encode(e)), Encode(e)) }

  ghost function RowsOf(events: seq<Event>): (r: seq<R.Row>)
    ensures |r| == |events|
    ensures forall i :: 0 <= i < |events| ==> r[i] == RowOf(events[i])
  {
    seq(|events|, i requires 0 <= i < |events| => RowOf(events[i]))
  }

  ghost predicate DistinctIds(events: seq<Event>) {
    forall i, j :: 0 <= i < j < |events| ==> events[i].id != events[j].id
  }

  /** Whether an event may follow what was acknowledged so far. */
  ghost predicate MayFollow(acked: seq<Event>, e: Event) {
    && e.Coherent()
    && (e.kind.Alert? && acked != [] ==>
          SemanticDigest(acked[|acked| - 1].health) != SemanticDigest(e.health))
    && (e.kind.Recovered? ==> acked != [] && acked[|acked| - 1].kind.Alert?)
  }

  /** Every event follows the ones before it. */
  ghost predicate Orderly(events: seq<Event>) {
    forall i :: 0 <= i < |events| ==> MayFollow(events[..i], events[i])
  }

  ghost predicate JournalFits(key: nat, st: System) {
    match st.disk.journal
    case None => st.acked == []
    case Some(s) =>
      && s.Coherent() && s.authority.key == key
      && s.lastNotified == (if st.acked == [] then None
                            else Some(SemanticDigest(st.acked[|st.acked| - 1].health)))
      && (s.alertActive <==> st.acked != [] && st.acked[|st.acked| - 1].kind.Alert?)
      && (s.pending.Some? ==>
            && MayFollow(st.acked, s.pending.value)
            && s.pending.value.health.installation == s.authority.installation
            && s.pending.value.health.store == s.authority.store)
  }

  ghost function PendingOf(st: System): Option<Event> {
    if st.disk.journal.Some? then st.disk.journal.value.pending else None
  }

  /** The events known to the sender: acknowledged, then the pending one. */
  ghost function Known(st: System): seq<Event> {
    if PendingOf(st).Some? then st.acked + [PendingOf(st).value] else st.acked
  }

  ghost predicate MacFits(st: System, m: Mac) {
    match m
    case RequestMac(_, _, body) => body.Canonical? && body.event in Known(st)
    case AckMac(_, id, digest, _) => exists row :: row in st.rows && row.eventId == id && row.digest == digest
  }

  ghost predicate Inv(key: nat, st: System) {
    && JournalFits(key, st)
    && Orderly(st.acked)
    && DistinctIds(Known(st))
    && (forall e :: e in Known(st) ==> e.id in st.used)
    && (st.rows == RowsOf(st.acked) || st.rows == RowsOf(Known(st)))
    && (st.run.Some? ==> PendingOf(st) == st.run && !st.disk.marker)
    && (forall m :: m in st.macs && m.key == key ==> MacFits(st, m))
  }

  lemma InitInv(key: nat)
    ensures Inv(key, INIT)
  {}

  // ---- One step ------------------------------------------------------------------------------------

  lemma KnownSnoc(st: System, e: Event, next: System)
    requires PendingOf(st).None? && PendingOf(next) == Some(e) && next.acked == st.acked
    requires DistinctIds(st.acked) && (forall k :: k in st.acked ==> k.id in st.used)
    requires e.id !in st.used
    ensures DistinctIds(Known(next)) && Known(next) == Known(st) + [e]
  {}

  lemma BeginInv(key: nat, st: System, step: Step)
    requires Inv(key, st) && step.Begin? && Enabled(key, st, step)
    ensures Inv(key, Next(key, st, step))
  {
    var plan := S.PlanRun(st.disk, step.current, step.endpoint, key, step.id);
    PlanFits(key, st, step);
    hide S.PlanRun, Inv;
    match plan
    case Refused =>
    case Quiet =>
    case Resume(e) => ResumeInv(key, st, e);
    case Create(e, delivery) => CreateInv(key, st, e, delivery, step.id, step.write);
  }

  /** What a run does to the journal: it resumes what is pending, or puts a new event there that may
      follow the acknowledged ones. */
  lemma PlanFits(key: nat, st: System, step: Step)
    requires Inv(key, st) && step.Begin? && Enabled(key, st, step)
    ensures match S.PlanRun(st.disk, step.current, step.endpoint, key, step.id)
            case Resume(e) => PendingOf(st) == Some(e) && !st.disk.marker
            case Create(e, delivery) =>
              && PendingOf(st).None? && !st.disk.marker && e.id == step.id && delivery.pending == Some(e)
              && JournalFits(key, st.(disk := S.Disk(Some(delivery), false)))
            case _ => true
  {
    hide DistinctIds, Orderly, RowsOf, MacFits;
  }

  lemma ResumeInv(key: nat, st: System, e: Event)
    requires Inv(key, st) && PendingOf(st) == Some(e) && !st.disk.marker
    ensures Inv(key, st.(run := Some(e)))
  {
    MacsStillFit(key, st, st.(run := Some(e)));
    hide MacFits, DistinctIds, Orderly, RowsOf;
  }

  lemma CreateInv(key: nat, st: System, e: Event, delivery: S.Delivery, id: string, write: S.Write)
    requires Inv(key, st) && st.run.None? && PendingOf(st).None? && !st.disk.marker && e.id == id && id !in st.used
    requires delivery.pending == Some(e) && JournalFits(key, st.(disk := S.Disk(Some(delivery), false)))
    ensures Inv(key, st.(disk := S.Persist(st.disk, delivery, write), used := st.used + {id},
                         run := if write.Written? then Some(e) else None))
  {
    var next := st.(disk := S.Persist(st.disk, delivery, write), used := st.used + {id},
                    run := if write.Written? then Some(e) else None);
    if PendingOf(next).Some? { KnownSnoc(st, e, next); }
    MacsStillFit(key, st, next);
    hide MacFits, DistinctIds, Orderly, RowsOf, MayFollow;
  }

  lemma TransmitInv(key: nat, st: System, step: Step)
    requires Inv(key, st) && step.Transmit? && Enabled(key, st, step)
    ensures Inv(key, Next(key, st, step))
  {
    var next := Next(key, st, step);
    forall m | m in next.macs && m.key == key ensures MacFits(next, m) {
      if m in st.macs {
        assert MacFits(st, m);
      } else {
        assert Known(st)[|st.acked|] == st.run.value;
      }
    }
  }

  /** The receiver only ever accepts an event the sender knows, with the journalled bytes. */
  lemma AcceptedIsKnown(key: nat, st: System, http: R.Http, now: int) returns (e: Event)
    requires Inv(key, st) && Derivable(key, st, http.signed.mac)
    requires VerifyEvent(http.signed, key, now).Some?
    ensures VerifyEvent(http.signed, key, now) == Some(e)
    ensures e in Known(st) && http.signed.body == Encode(e)
  {
    e := VerifyEvent(http.signed, key, now).value;
    assert MacFits(st, http.signed.mac);
  }

  lemma RowsGrow(key: nat, st: System, e: Event, fault: R.Fault)
    requires Inv(key, st) && e in Known(st)
    ensures var rows := R.AcceptRows(st.rows, e, Encode(e), fault);
      && st.rows <= rows
      && (rows == RowsOf(st.acked) || rows == RowsOf(Known(st)))
    ensures var result := R.AcceptResult(st.rows, e, Encode(e), fault);
      && (result.Refused? ==> result.why == R.StoreFailed)
      && (result.Stored? ==> RowOf(e) in R.AcceptRows(st.rows, e, Encode(e), fault))
  {
    var found := R.FindRow(st.rows, e.id);
    hide R.FindRow, MacFits, MayFollow, Orderly, JournalFits;
    var i :| 0 <= i < |Known(st)| && Known(st)[i] == e;
    if found.Some? {
      var j :| 0 <= j < |st.rows| && st.rows[j] == found.value;
      assert st.rows[j] == RowOf(Known(st)[j]);
      assert Known(st)[j].id == e.id;
      assert i == j;
    } else {
      assert forall j :: 0 <= j < |st.rows| ==> st.rows[j] == RowOf(Known(st)[j]) && st.rows[j] in st.rows;
      assert i == |st.acked| == |st.rows|;
      assert st.rows + [RowOf(e)] == RowsOf(Known(st));
    }
  }

  lemma ReceiveInv(key: nat, st: System, step: Step)
    requires Inv(key, st) && step.Receive? && Enabled(key, st, step)
    ensures Inv(key, Next(key, st, step))
    ensures st.rows <= Next(key, st, step).rows
  {
    var next := Next(key, st, step);
    var h, now, fault := step.http, step.now, step.fault;
    if R.EarlyRefusal(h).None? && VerifyEvent(h.signed, key, now).Some? {
      var e := AcceptedIsKnown(key, st, h, now);
      RowsGrow(key, st, e, fault);
      ReceivedMacsFit(key, st, h, now, fault, e);
      hide R.AnswerTo, R.AcceptRows, R.AcceptResult, R.EarlyRefusal, VerifyEvent;
      FrameInv(key, st, next);
    } else {
      RefusedReceive(key, st, step);
    }
  }

  lemma RefusedReceive(key: nat, st: System, step: Step)
    requires step.Receive? && Enabled(key, st, step)
    requires R.EarlyRefusal(step.http).Some? || VerifyEvent(step.http.signed, key, step.now).None?
    ensures Next(key, st, step) == st
  {
    hide R.EarlyRefusal, VerifyEvent;
  }

  lemma FrameInv(key: nat, st: System, next: System)
    requires Inv(key, st) && next == st.(rows := next.rows, macs := next.macs)
    requires next.rows == RowsOf(st.acked) || next.rows == RowsOf(Known(st))
    requires forall m :: m in next.macs && m.key == key ==> MacFits(next, m)
    ensures Inv(key, next)
  {
    hide MacFits, MayFollow, Orderly;
    assert Known(next) == Known(st);
  }

  lemma ReceivedMacsFit(key: nat, st: System, h: R.Http, now: int, fault: R.Fault, e: Event)
    requires forall m :: m in st.macs && m.key == key ==> MacFits(st, m)
    requires Enabled(key, st, Receive(h, now, fault)) && R.EarlyRefusal(h).None?
    requires VerifyEvent(h.signed, key, now) == Some(e) && h.signed.body == Encode(e)
    requires var rows := R.AcceptRows(st.rows, e, Encode(e), fault);
      && st.rows <= rows
      && (R.AcceptResult(st.rows, e, Encode(e), fault).Stored? ==> RowOf(e) in rows)
    ensures var next := Next(key, st, Receive(h, now, fault));
      forall m :: m in next.macs && m.key == key ==> MacFits(next, m)
  {
    var next := Next(key, st, Receive(h, now, fault));
    hide R.AcceptRows, R.EarlyRefusal, VerifyEvent;
    forall m | m in next.macs && m.key == key ensures MacFits(next, m) {
      if m in st.macs {
        assert MacFits(st, m);
        if m.AckMac? {
          var row :| row in st.rows && row.eventId == m.eventId && row.digest == m.digest;
          assert row in next.rows;
        }
      } else {
        assert RowOf(e) in next.rows;
      }
    }
  }

  /** An acknowledgement the sender takes was made by the receiver over a stored row. */
  lemma AckMeansStored(key: nat, st: System, reply: S.Reply)
    requires Inv(key, st) && st.run.Some? && reply.Reply? && Derivable(key, st, reply.ack.mac)
    requires S.Acknowledges(st.run.value, reply, key)
    ensures st.rows == RowsOf(Known(st)) && st.disk.journal.Some?
  {
    hide JournalFits, Orderly;
    assert MacFits(st, reply.ack.mac);
    var e := st.run.value;
    var row :| row in st.rows && row.eventId == e.id && row.digest == BodyDigest(Encode(e));
    var j :| 0 <= j < |st.rows| && st.rows[j] == row;
    assert st.rows[j] == RowOf(Known(st)[j]);
    assert Known(st)[|st.acked|] == e;
    assert j == |st.acked|;
  }

  lemma MacsStillFit(key: nat, st: System, next: System)
    requires forall m :: m in st.macs && m.key == key ==> MacFits(st, m)
    requires next.macs == st.macs && next.rows == st.rows
    requires forall e :: e in Known(st) ==> e in Known(next)
    ensures forall m :: m in next.macs && m.key == key ==> MacFits(next, m)
  {
    forall m | m in next.macs && m.key == key ensures MacFits(next, m) {
      assert MacFits(st, m);
    }
  }

  lemma OrderlySnoc(acked: seq<Event>, e: Event)
    requires Orderly(acked) && MayFollow(acked, e)
    ensures Orderly(acked + [e])
  {
    hide MayFollow;
    forall i | 0 <= i < |acked + [e]| ensures MayFollow((acked + [e])[..i], (acked + [e])[i]) {
      assert (acked + [e])[..i] == acked[..i];
      assert i == |acked| ==> acked[..i] == acked;
    }
  }

  lemma FinishInv(key: nat, st: System, step: Step)
    requires Inv(key, st) && step.Finish? && Enabled(key, st, step)
    ensures Inv(key, Next(key, st, step))
  {
    if S.Acknowledges(st.run.value, step.reply, key) {
      AckMeansStored(key, st, step.reply);
      hide S.Acknowledges;
      if step.ackWrite.Replaced? || step.ackWrite.Written? {
        CompletedInv(key, st, step.ackWrite);
      } else {
        UnfinishedInv(key, st, st.(run := None, disk := S.Disk(st.disk.journal, step.ackWrite.MarkerOnly?)));
      }
    } else {
      UnfinishedInv(key, st, st.(run := None));
    }
  }

  /** Dropping the live run, or setting the marker, changes nothing the invariant speaks of. */
  lemma UnfinishedInv(key: nat, st: System, next: System)
    requires Inv(key, st)
    requires next == st.(run := None, disk := S.Disk(st.disk.journal, next.disk.marker))
    ensures Inv(key, next)
  {
    hide MacFits, MayFollow, Orderly;
    assert Known(next) == Known(st);
    MacsStillFit(key, st, next);
  }

  lemma CompletedInv(key: nat, st: System, write: S.Write)
    requires Inv(key, st) && st.run.Some? && st.disk.journal.Some?
    requires st.rows == RowsOf(Known(st)) && (write.Replaced? || write.Written?)
    ensures var done := S.Completed(st.disk.journal.value.authority, st.run.value);
      Inv(key, st.(disk := S.Persist(st.disk, done, write), run := None,
                   acked := st.acked + [st.run.value]))
  {
    var done := S.Completed(st.disk.journal.value.authority, st.run.value);
    var next := st.(disk := S.Persist(st.disk, done, write), run := None,
                    acked := st.acked + [st.run.value]);
    OrderlySnoc(st.acked, st.run.value);
    hide MacFits, MayFollow, Orderly, RowOf;
    assert Known(next) == Known(st);
    MacsStillFit(key, st, next);
  }

  lemma StepInv(key: nat, st: System, step: Step)
    requires Inv(key, st) && Enabled(key, st, step)
    ensures Inv(key, Next(key, st, step))
  {
    match step
    case Begin(_, _, _, _) => BeginInv(key, st, step);
    case Transmit(_) => TransmitInv(key, st, step);
    case Receive(_, _, _) => ReceiveInv(key, st, step);
    case Finish(_, _) => FinishInv(key, st, step);
    case Crash(_) => UnfinishedInv(key, st, Next(key, st, step));
  }

  // ---- Every run -------------------------------------------------------------------------------------

  /** `steps` can be taken from `st` and end in `end`. */
  ghost predicate Runs(key: nat, st: System, steps: seq<Step>, end: System)
    decreases |steps|
  {
    if steps == [] then st == end
    else Enabled(key, st, steps[0]) && Runs(key, Next(key, st, steps[0]), steps[1..], end)
  }

  lemma {:induction false} RunInv(key: nat, st: System, steps: seq<Step>, end: System)
    requires Inv(key, st) && Runs(key, st, steps, end)
    ensures Inv(key, end)
    decreases |steps|
  {
    if steps != [] {
      StepInv(key, st, steps[0]);
      hide Inv, Enabled, Next;
      RunInv(key, Next(key, st, steps[0]), steps[1..], end);
    }
  }

  /** In every interleaving, the inbox in first-acceptance order is the acknowledged events,
      followed by at most the one pending event; each identifier occurs once, with exactly the
      journalled bytes. */
  lemma InboxIsHistory(key: nat, steps: seq<Step>, end: System)
    requires Runs(key, INIT, steps, end)
    ensures end.rows == RowsOf(end.acked)
         || (PendingOf(end).Some? && end.rows == RowsOf(end.acked + [PendingOf(end).value]))
    ensures R.KeyedById(end.rows)
    ensures end.disk.journal.Some? ==> end.disk.journal.value.Coherent()
  {
    InitInv(key);
    RunInv(key, INIT, steps, end);
    hide Runs;
    InvGivesInbox(key, end);
  }

  lemma InvGivesInbox(key: nat, st: System)
    requires Inv(key, st)
    ensures st.rows == RowsOf(st.acked)
         || (PendingOf(st).Some? && st.rows == RowsOf(st.acked + [PendingOf(st).value]))
    ensures R.KeyedById(st.rows)
    ensures st.disk.journal.Some? ==> st.disk.journal.value.Coherent()
  {
    hide MacFits, MayFollow, Orderly, R.KeyedById, RowsOf;
    DistinctFront(st);
    hide DistinctIds;
    RowsKeyed(st.acked);
    RowsKeyed(Known(st));
  }

  lemma DistinctFront(st: System)
    requires DistinctIds(Known(st))
    ensures DistinctIds(st.acked)
  {
    forall i, j | 0 <= i < j < |st.acked| ensures st.acked[i].id != st.acked[j].id {
      assert Known(st)[i] == st.acked[i] && Known(st)[j] == st.acked[j];
    }
  }

  lemma RowsKeyed(events: seq<Event>)
    requires DistinctIds(events)
    ensures R.KeyedById(RowsOf(events))
  {}

  /** What the acknowledged events look like: an alert first, a recovery only right after an
      alert, no two neighbours that say the same, and the journal describing the last one. */
  lemma HistoryIsOrderly(key: nat, steps: seq<Step>, end: System)
    requires Runs(key, INIT, steps, end)
    ensures end.acked != [] ==> end.acked[0].kind.Alert?
    ensures forall i :: 0 <= i < |end.acked| && end.acked[i].kind.Recovered? ==>
              i > 0 && end.acked[i - 1].kind.Alert?
    ensures forall i :: 0 < i < |end.acked| ==>
              SemanticDigest(end.acked[i - 1].health) != SemanticDigest(end.acked[i].health)
    ensures end.disk.journal.Some? ==>
              var s := end.disk.journal.value;
              && s.lastNotified == (if end.acked == [] then None
                                    else Some(SemanticDigest(end.acked[|end.acked| - 1].health)))
              && (s.alertActive <==> end.acked != [] && end.acked[|end.acked| - 1].kind.Alert?)
  {
    InitInv(key);
    RunInv(key, INIT, steps, end);
    forall i | 0 <= i < |end.acked| ensures MayFollow(end.acked[..i], end.acked[i]) {}
    assert end.acked != [] ==> end.acked[..0] == [];
    forall i | 0 < i < |end.acked|
      ensures SemanticDigest(end.acked[i - 1].health) != SemanticDigest(end.acked[i].health)
      ensures end.acked[i].kind.Recovered? ==> end.acked[i - 1].kind.Alert?
    {
      assert end.acked[..i][|end.acked[..i]| - 1] == end.acked[i - 1];
      assert MayFollow(end.acked[..i - 1], end.acked[i - 1]);
      assert MayFollow(end.acked[..i], end.acked[i]);
    }
  }

  /** A pending event stays pending, unchanged, until it is the next acknowledged event. */
  lemma PendingStepStays(key: nat, st: System, step: Step)
    requires Inv(key, st) && Enabled(key, st, step) && PendingOf(st).Some?
    ensures var next := Next(key, st, step);
      || (PendingOf(next) == PendingOf(st) && next.acked == st.acked)
      || (PendingOf(next).None? && next.acked == st.acked + [PendingOf(st).value])
    ensures var next := Next(key, st, step); st.acked <= next.acked
  {
    hide Orderly, MacFits, MayFollow, DistinctIds, RowsOf, S.Acknowledges, R.AnswerTo, R.RowsAfter, S.PlanRun, S.Persist;
    if step.Begin? {
      PlanFits(key, st, step);
    } else if step.Finish? {
      FinishEnds(key, st, step);
    }
  }

  lemma FinishEnds(key: nat, st: System, step: Step)
    requires Inv(key, st) && Enabled(key, st, step) && step.Finish?
    ensures var next := Next(key, st, step);
      || (PendingOf(next) == PendingOf(st) && next.acked == st.acked)
      || (PendingOf(next).None? && next.acked == st.acked + [PendingOf(st).value])
  {
    hide Orderly, MacFits, MayFollow, DistinctIds, RowsOf, JournalFits, S.Acknowledges;
  }

  lemma AckedGrowsStep(key: nat, st: System, step: Step)
    requires Enabled(key, st, step)
    ensures st.acked <= Next(key, st, step).acked
  {}

  lemma {:induction false} AckedGrows(key: nat, st: System, steps: seq<Step>, end: System)
    requires Runs(key, st, steps, end)
    ensures st.acked <= end.acked
    decreases |steps|
  {
    if steps != [] {
      AckedGrowsStep(key, st, steps[0]);
      AckedGrows(key, Next(key, st, steps[0]), steps[1..], end);
    }
  }

  /** Over any run, a pending event is either still pending, with nothing acknowledged since, or
      it is the very next acknowledged event: never dropped, replaced or overtaken. */
  lemma {:induction false} PendingIsNext(key: nat, st: System, steps: seq<Step>, end: System)
    requires Inv(key, st) && Runs(key, st, steps, end) && PendingOf(st).Some?
    ensures || (PendingOf(end) == PendingOf(st) && end.acked == st.acked)
            || st.acked + [PendingOf(st).value] <= end.acked
    decreases |steps|
  {
    if steps != [] {
      var next := Next(key, st, steps[0]);
      PendingStepStays(key, st, steps[0]);
      StepInv(key, st, steps[0]);
      hide Inv, Enabled, Next;
      if PendingOf(next).Some? {
        PendingIsNext(key, next, steps[1..], end);
      } else {
        AckedGrows(key, next, steps[1..], end);
      }
    }
  }

  /** A run that finds a pending event takes it up unchanged, whatever the present health. */
  lemma PendingIsResent(key: nat, st: System, step: Step)
    requires Inv(key, st) && step.Begin? && Enabled(key, st, step) && PendingOf(st).Some?
    ensures Next(key, st, step).run.Some? ==> Next(key, st, step).run == PendingOf(st)
    ensures !st.disk.marker
            && st.disk.journal.value.authority == S.BindingOf(step.current, step.endpoint, key) ==>
              Next(key, st, step).run == PendingOf(st)
    ensures Next(key, st, step).disk == st.disk
  {}

  /** The receiver never meets a reused identifier with other bytes, nor a corrupt row. */
  lemma NoConflictEver(key: nat, steps: seq<Step>, st: System, step: Step)
    requires Runs(key, INIT, steps, st) && step.Receive? && Enabled(key, st, step)
    ensures R.AnswerTo(st.rows, step.http, key, step.now, step.fault) != R.Refusal(409)
    ensures step.fault.NoFault? ==>
              R.AnswerTo(st.rows, step.http, key, step.now, step.fault) != R.Refusal(503)
  {
    InitInv(key);
    RunInv(key, INIT, steps, st);
    if R.EarlyRefusal(step.http).None? && VerifyEvent(step.http.signed, key, step.now).Some? {
      var e := AcceptedIsKnown(key, st, step.http, step.now);
      RowsGrow(key, st, e, step.fault);
      RefusalIsAFault(st.rows, e, Encode(e), step.fault);
    }
  }

  lemma RefusalIsAFault(rows: seq<R.Row>, e: Event, body: Body, fault: R.Fault)
    ensures var result := R.AcceptResult(rows, e, body, fault);
      result.Refused? && result.why == R.StoreFailed ==> !fault.NoFault?
  {}

  /** Nothing blocks a pending event but an uncertain journal: from any reachable state without
      the marker and without a live run, four undisturbed steps acknowledge it. */
  lemma PendingCanFinish(key: nat, st: System, current: Health, id: string, stamp: int)
      returns (steps: seq<Step>, end: System)
    requires Inv(key, st) && PendingOf(st).Some? && !st.disk.marker && st.run.None?
    requires current.Coherent() && id !in st.used
    requires current.installation == st.disk.journal.value.authority.installation
    requires current.store == st.disk.journal.value.authority.store
    ensures |steps| == 4 && Runs(key, st, steps, end)
    ensures end.acked == st.acked + [PendingOf(st).value] && PendingOf(end).None? && !end.disk.marker
    ensures end.rows == RowsOf(end.acked)
  {
    var e := PendingOf(st).value;
    hide Inv, Enabled, Next;
    var s1, s2, st1, st2 := TakeUp(key, st, e, current, id, stamp);
    var h := R.Http("/v1/backup-alerts", false, Some(1), true, 1, SignEvent(Encode(e), key, stamp));
    var s3 := Receive(h, stamp, R.NoFault);
    var st3, status := ReceiveAnswers(key, st2, e, stamp, s3);
    var s4;
    s4, end := FinishAnswered(key, st3, e, status);
    steps := [s1, s2, s3, s4];
    RunsOfFour(key, st, st1, st2, st3, end, s1, s2, s3, s4);
  }

  lemma TakeUp(key: nat, st: System, e: Event, current: Health, id: string, stamp: int)
      returns (s1: Step, s2: Step, st1: System, st2: System)
    requires Inv(key, st) && PendingOf(st) == Some(e) && !st.disk.marker && st.run.None?
    requires current.Coherent() && id !in st.used
    requires current.installation == st.disk.journal.value.authority.installation
    requires current.store == st.disk.journal.value.authority.store
    ensures Enabled(key, st, s1) && st1 == Next(key, st, s1)
    ensures Enabled(key, st1, s2) && st2 == Next(key, st1, s2) && Inv(key, st2)
    ensures st2 == st.(run := Some(e), macs := st.macs + {RequestMac(key, stamp, Encode(e))})
  {
    s1 := Begin(current, st.disk.journal.value.authority.endpoint, id, S.Written);
    PendingIsResent(key, st, s1);
    BeginInv(key, st, s1);
    st1 := Next(key, st, s1);
    assert st1 == st.(run := Some(e));
    s2 := Transmit(stamp);
    hide Inv, S.PlanRun;
    TransmitInv(key, st1, s2);
    st2 := Next(key, st1, s2);
  }

  lemma FinishAnswered(key: nat, st: System, e: Event, status: Status)
      returns (step: Step, end: System)
    requires Inv(key, st) && st.run == Some(e)
    requires AckMac(key, e.id, BodyDigest(Encode(e)), status) in st.macs
    ensures Enabled(key, st, step) && end == Next(key, st, step)
    ensures end.acked == st.acked + [e] && PendingOf(end).None? && !end.disk.marker
    ensures end.rows == RowsOf(end.acked)
  {
    step := Finish(S.Reply(200, MakeAck(e.id, BodyDigest(Encode(e)), status, key)), S.Written);
    RunIsPending(key, st, e);
    AckMeansStored(key, st, step.reply);
    hide Inv, Known, RowsOf;
    end := Next(key, st, step);
  }

  lemma RunIsPending(key: nat, st: System, e: Event)
    requires Inv(key, st) && st.run == Some(e)
    ensures PendingOf(st) == Some(e) && !st.disk.marker && Known(st) == st.acked + [e]
  {}

  lemma ReceiveAnswers(key: nat, st: System, e: Event, stamp: int, step: Step)
      returns (next: System, status: Status)
    requires Inv(key, st) && st.run == Some(e) && RequestMac(key, stamp, Encode(e)) in st.macs
    requires step.Receive? && step.now == stamp && step.fault.NoFault?
    requires step.http.signed == SignEvent(Encode(e), key, stamp)
    requires R.EarlyRefusal(step.http).None?
    ensures Enabled(key, st, step) && next == Next(key, st, step) && Inv(key, next)
    ensures next.run == st.run && next.disk == st.disk && next.acked == st.acked
    ensures AckMac(key, e.id, BodyDigest(Encode(e)), status) in next.macs
  {
    ReceiveInv(key, st, step);
    next := Next(key, st, step);
    assert e == Known(st)[|st.acked|];
    RowsGrow(key, st, e, R.NoFault);
    PendingCoherent(key, st, e);
    hide Inv, Known, R.EarlyRefusal, R.AcceptRows;
    RefusalIsAFault(st.rows, e, Encode(e), R.NoFault);
    status := R.AcceptResult(st.rows, e, Encode(e), R.NoFault).status;
    AcceptDigest(st.rows, e, Encode(e));
    hide R.AcceptResult;
  }

  lemma PendingCoherent(key: nat, st: System, e: Event)
    requires Inv(key, st) && st.run == Some(e)
    ensures e.Coherent()
  {}

  lemma AcceptDigest(rows: seq<R.Row>, e: Event, body: Body)
    ensures var result := R.AcceptResult(rows, e, body, R.NoFault);
      result.Stored? ==> result.digest == BodyDigest(body)
  {}

  lemma RunsOfFour(key: nat, a: System, b: System, c: System, d: System, e: System,
                   s1: Step, s2: Step, s3: Step, s4: Step)
    requires Enabled(key, a, s1) && b == Next(key, a, s1)
    requires Enabled(key, b, s2) && c == Next(key, b, s2)
    requires Enabled(key, c, s3) && d == Next(key, c, s3)
    requires Enabled(key, d, s4) && e == Next(key, d, s4)
    ensures Runs(key, a, [s1, s2, s3, s4], e)
  {
    hide Enabled, Next;
    assert [s1, s2, s3, s4][1..] == [s2, s3, s4];
    assert [s2, s3, s4][1..] == [s3, s4];
    assert [s3, s4][1..] == [s4];
    assert [s4][1..] == [];
    assert Runs(key, e, [], e);
    assert Runs(key, d, [s4], e);
    assert Runs(key, c, [s3, s4], e);
    assert Runs(key, b, [s2, s3, s4], e);
  }
}
