/** The change-only sender: a durable journal, one pending event at most, and a write that may
    stop at any point. */
module AlertSender {
  import opened Options
  import opened AlertProtocol

  /** Whose journal this is: the keyed digest of installation, destination and endpoint. */
  datatype Authority = Authority(key: nat, installation: string, store: string, endpoint: string)

  /** The durable record. `pendingDigest` is present exactly when `pending` is. */
  datatype Delivery = Delivery(authority: Authority, lastNotified: Option<Digest>,
                               alertActive: bool, pending: Option<Event>,
                               pendingDigest: Option<Digest>)
  {
    predicate Coherent() {
      && (pending.None? <==> pendingDigest.None?)
      && (pending.Some? ==> pendingDigest == Some(BodyDigest(Encode(pending.value))))
      && (alertActive ==> lastNotified.Some?)
    }
  }

  /** The journal file, and the marker of a write whose outcome nobody confirmed. */
  datatype Disk = Disk(journal: Option<Delivery>, marker: bool)

  /** Where a journal write stopped: before its marker was published, after it, after the new
      journal replaced the old one, or at its end. */
  datatype Write = NoMarker | MarkerOnly | Replaced | Written

  /** The write-intent publisher. */
  function Persist(d: Disk, s: Delivery, w: Write): Disk
    requires !d.marker
  {
    match w
    case NoMarker => d
    case MarkerOnly => d.(marker := true)
    case Replaced => Disk(Some(s), true)
    case Written => Disk(Some(s), false)
  }

  function BindingOf(current: Health, endpoint: string, key: nat): Authority {
    Authority(key, current.installation, current.store, endpoint)
  }

  function LoadOrNew(d: Disk, authority: Authority): Delivery {
    match d.journal
    case Some(s) => s
    case None => Delivery(authority, None, false, None, None)
  }

  /** Which event, if any, an observation calls for. */
  function Wanted(s: Delivery, current: Health): Option<Kind> {
    if current.state.Alerting? && Some(SemanticDigest(current)) != s.lastNotified then Some(Alert)
    else if current.state.Healthy? && s.alertActive then Some(Recovered)
    else None
  }

  datatype Plan = Refused | Quiet | Resume(event: Event) | Create(event: Event, next: Delivery)

  /** What one run does before it sends: refuse, stay quiet, resume the pending event whatever
      the present health, or create a new one. */
  function PlanRun(d: Disk, current: Health, endpoint: string, key: nat, id: string): Plan {
    var authority := BindingOf(current, endpoint, key);
    var s := LoadOrNew(d, authority);
    if d.marker || !s.Coherent() || s.authority != authority then Refused
    else match s.pending
      case Some(e) =>
        if e.health.installation != current.installation || e.health.store != current.store
        then Refused else Resume(e)
      case None =>
        match Wanted(s, current)
        case None => Quiet
        case Some(kind) =>
          var e := NewEvent(current, kind, id);
          Create(e, s.(pending := Some(e), pendingDigest := Some(BodyDigest(Encode(e)))))
  }

  /** The journal once the pending event is acknowledged. */
  function Completed(authority: Authority, e: Event): Delivery {
    Delivery(authority, Some(SemanticDigest(e.health)), e.kind.Alert?, None, None)
  }

  /** What came back from the transport: a status and a body that parsed, or nothing usable. */
  datatype Reply = Reply(code: int, ack: Ack) | Nothing

  predicate Acknowledges(e: Event, r: Reply, key: nat) {
    r.Reply? && (r.code == 200 || r.code == 201) && VerifyAck(e, r.ack, key)
  }

  datatype Outcome = Unavailable | StayedQuiet | StillPending(event: Event, resumed: bool, recheck: bool)
                   | Delivered(event: Event, resumed: bool, recheck: bool, receiver: Status)

  class Sender {
    var disk: Disk

    constructor (disk: Disk)
      ensures this.disk == disk
    {
      this.disk := disk;
    }

    /** One run under the file lock.  `first` and `second` say how far the two journal writes
        get, `reply` what the transport returns for the request this run sends. */
    method Apply(current: Health, endpoint: string, key: nat, id: string, stamp: int,
                 reply: Reply, first: Write, second: Write)
      returns (outcome: Outcome, sent: Option<Request>)
      modifies this
      // Nothing is sent or written on a refusal or a quiet observation.
      ensures PlanRun(old(disk), current, endpoint, key, id).Refused? ==>
                outcome == Unavailable && sent == None && disk == old(disk)
      ensures PlanRun(old(disk), current, endpoint, key, id).Quiet? ==>
                outcome == StayedQuiet && sent == None && disk == old(disk)
      // A new event is on disk, confirmed, before a byte of it is sent.
      ensures PlanRun(old(disk), current, endpoint, key, id).Create? && !first.Written? ==>
                && outcome == Unavailable && sent == None
                && disk == Persist(old(disk), PlanRun(old(disk), current, endpoint, key, id).next, first)
      // What is sent is the pending event's own bytes, signed now.
      ensures sent.Some? ==>
                var plan := PlanRun(old(disk), current, endpoint, key, id);
                && (plan.Resume? || (plan.Create? && first.Written?))
                && sent.value == SignEvent(Encode(plan.event), key, stamp)
                && var held := if plan.Create? then Disk(Some(plan.next), false) else old(disk);
                   disk == if Acknowledges(plan.event, reply, key)
                           then Persist(held, Completed(held.journal.value.authority, plan.event), second)
                           else held
      ensures sent.Some? <==>
                var plan := PlanRun(old(disk), current, endpoint, key, id);
                plan.Resume? || (plan.Create? && first.Written?)
      // The outcome says delivered exactly when the acknowledgement is on disk, confirmed.
      ensures outcome.Delivered? <==>
                sent.Some? && second.Written?
                && Acknowledges(PlanRun(old(disk), current, endpoint, key, id).event, reply, key)
      ensures outcome.Delivered? || outcome.StillPending? ==>
                && outcome.event == PlanRun(old(disk), current, endpoint, key, id).event
                && (outcome.resumed <==> PlanRun(old(disk), current, endpoint, key, id).Resume?)
                && (outcome.recheck <==>
                      SemanticDigest(outcome.event.health) != SemanticDigest(current))
    {
      sent := None;
      var authority := BindingOf(current, endpoint, key);
      if disk.marker { return Unavailable, None; }
      var state := LoadOrNew(disk, authority);
      if !state.Coherent() || state.authority != authority { return Unavailable, None; }
      var resumed := state.pending.Some?;
      var event;
      if resumed {
        event := state.pending.value;
        if event.health.installation != current.installation
           || event.health.store != current.store { return Unavailable, None; }
      } else {
        var kind := Wanted(state, current);
        if kind.None? { return StayedQuiet, None; }
        event := NewEvent(current, kind.value, id);
        state := Delivery(authority, state.lastNotified, state.alertActive,
                          Some(event), Some(BodyDigest(Encode(event))));
        disk := Persist(disk, state, first);
        if !first.Written? { return Unavailable, None; }
      }
      var recheck := SemanticDigest(event.health) != SemanticDigest(current);
      sent := Some(SignEvent(Encode(event), key, stamp));
      if !Acknowledges(event, reply, key) {
        return StillPending(event, resumed, recheck), sent;
      }
      disk := Persist(disk, Completed(authority, event), second);
      if !second.Written? { return Unavailable, sent; }
      outcome := Delivered(event, resumed, recheck, reply.ack.status);
    }
  }

  /** Observations that differ only in check time or age plan alike, up to the event they carry. */
  lemma AgeingStaysQuiet(d: Disk, a: Health, b: Health, endpoint: string, key: nat, id: string)
    requires SemanticDigest(a) == SemanticDigest(b)
    ensures PlanRun(d, a, endpoint, key, id).Quiet? <==> PlanRun(d, b, endpoint, key, id).Quiet?
    ensures d.journal.Some? && d.journal.value.pending.None?
            && d.journal.value.lastNotified == Some(SemanticDigest(a)) && a.state.Alerting? ==>
              !PlanRun(d, b, endpoint, key, id).Create? && !PlanRun(d, b, endpoint, key, id).Resume?
  {}
}
