/** The public backup notification: what a health observation says, when two say the same, and
    how events and acknowledgements are authenticated.

    SHA-256 and HMAC (section 2 of RFC 2104) are ideal: a digest or MAC is the term it was
    computed from, so equal values have equal inputs and the two MAC domains never meet. */
module AlertProtocol {
  import opened Options

  datatype HealthState = Healthy | Waiting | Alerting

  datatype Mode = RealTime | OfflineClockDrill | FaultShadow

  datatype Code = RecoveryPointStale | Unverifiable | LastAttemptFailed | AttemptOverdue
                | SelectionStale | AttemptUnverifiable | HealthUnavailable

  datatype Attempt = Running | Complete | Failed

  datatype Health = Health(installation: string, store: string, mode: Mode, state: HealthState,
                           checkedAt: int, alerts: set<Code>, archiveVerified: bool,
                           backupId: Option<string>, age: Option<real>,
                           attemptStatus: Option<Attempt>, attemptId: Option<string>)
  {
    /** Alerts go with the alert state; a verified archive has an identity and an age; only an
        alert may be about an unverified archive. */
    ghost predicate Coherent() {
      && (alerts != {} <==> state.Alerting?)
      && (archiveVerified <==> backupId.Some? && age.Some?)
      && (!state.Alerting? ==> archiveVerified)
    }
  }

  datatype Kind = Alert | Recovered

  datatype Event = Event(id: string, kind: Kind, health: Health) {
    predicate Coherent() {
      match kind case Alert => health.state.Alerting? case Recovered => health.state.Healthy?
    }
  }

  /** The bytes on the wire: the canonical encoding of an event, or any other bytes. */
  datatype Body = Canonical(event: Event) | Foreign(id: nat)

  /** The allowlisted view a semantic digest covers: everything except when the observation was
      made and how old the recovery point was. */
  datatype View = View(installation: string, store: string, mode: Mode, state: HealthState,
                       alerts: set<Code>, archiveVerified: bool, backupId: Option<string>,
                       attemptStatus: Option<Attempt>, attemptId: Option<string>)

  datatype Digest = OfView(view: View) | OfBody(body: Body)

  datatype Status = Accepted | Duplicate

  datatype Mac = RequestMac(key: nat, stamp: int, body: Body)
               | AckMac(key: nat, eventId: string, digest: Digest, status: Status)

  datatype Request = Request(body: Body, stamp: int, mac: Mac)

  datatype Ack = Ack(eventId: string, digest: Digest, status: Status, mac: Mac)

  function ViewOf(h: Health): View {
    View(h.installation, h.store, h.mode, h.state, h.alerts, h.archiveVerified, h.backupId,
         h.attemptStatus, h.attemptId)
  }

  function SemanticDigest(h: Health): Digest { OfView(ViewOf(h)) }

  function Encode(e: Event): Body { Canonical(e) }

  function BodyDigest(b: Body): Digest { OfBody(b) }

  function NewEvent(h: Health, kind: Kind, id: string): Event { Event(id, kind, h) }

  function SignEvent(body: Body, key: nat, stamp: int): Request {
    Request(body, stamp, RequestMac(key, stamp, body))
  }

  /** Authenticate, then parse, then insist on the canonical bytes. */
  function VerifyEvent(r: Request, key: nat, now: int): Option<Event> {
    if !(now - 300 <= r.stamp <= now + 30) then None
    else if r.mac != RequestMac(key, r.stamp, r.body) then None
    else match r.body
      case Foreign(_) => None
      case Canonical(e) => if e.Coherent() then Some(e) else None
  }

  function MakeAck(eventId: string, digest: Digest, status: Status, key: nat): Ack {
    Ack(eventId, digest, status, AckMac(key, eventId, digest, status))
  }

  /** The acknowledgement is of this event, these bytes, and this key; its status is its own. */
  predicate VerifyAck(e: Event, a: Ack, key: nat) {
    var expected := MakeAck(e.id, BodyDigest(Encode(e)), a.status, key);
    a.eventId == e.id && a.digest == BodyDigest(Encode(e)) && a.mac == expected.mac
  }
}
