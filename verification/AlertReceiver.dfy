/** The idempotent receiver: one inbox row per event identifier, and an HTTP answer for every
    way a request can end. */
module AlertReceiver {
  import opened Options
  import opened AlertProtocol

  datatype Row = Row(eventId: string, digest: Digest, payload: Body)

  datatype Refusal = Corrupt | DifferentBytes | StoreFailed

  datatype Accepting = Stored(status: Status, digest: Digest) | Refused(why: Refusal)

  /** How the store behaves during one transaction: well, failing before its commit, or failing
      (its file replaced, say) after it. */
  datatype Fault = NoFault | BeforeCommit | AfterCommit

  function FindRow(rows: seq<Row>, id: string): (r: Option<Row>)
    ensures r.Some? ==> r.value in rows && r.value.eventId == id
    ensures r.None? ==> forall row :: row in rows ==> row.eventId != id
  {
    if rows == [] then None
    else if rows[0].eventId == id then Some(rows[0])
    else FindRow(rows[1..], id)
  }

  predicate IsCorrupt(row: Row) { row.digest != BodyDigest(row.payload) }

  /** The inbox has one row per event identifier: its primary key. */
  ghost predicate KeyedById(rows: seq<Row>) {
    forall i, j :: 0 <= i < j < |rows| ==> rows[i].eventId != rows[j].eventId
  }

  class Inbox {
    var rows: seq<Row>

    ghost predicate Valid()
      reads this
    {
      KeyedById(rows)
    }

    constructor ()
      ensures Valid() && rows == []
    {
      rows := [];
    }

    /** One transaction: answer a known identifier, refuse it for other bytes, or insert. */
    method Accept(event: Event, body: Body, fault: Fault) returns (r: Accepting)
      requires Valid()
      modifies this
      ensures Valid()
      ensures r.Stored? ==> r.digest == BodyDigest(body) && fault.NoFault?
      // A first acceptance appends one row, even when its answer is then lost.
      ensures (forall row :: row in old(rows) ==> row.eventId != event.id) ==>
                && rows == (if fault.BeforeCommit? then old(rows)
                            else old(rows) + [Row(event.id, BodyDigest(body), body)])
                && r == (if fault.NoFault? then Stored(Accepted, BodyDigest(body))
                         else Refused(StoreFailed))
      // A known identifier changes nothing; same bytes are a duplicate, others a conflict.
      ensures (exists row :: row in old(rows) && row.eventId == event.id) ==> rows == old(rows)
      ensures forall row :: row in old(rows) && row.eventId == event.id ==>
                r == if fault.BeforeCommit? then Refused(StoreFailed)
                     else if IsCorrupt(row) then Refused(Corrupt)
                     else if row.payload != body then Refused(DifferentBytes)
                     else if fault.AfterCommit? then Refused(StoreFailed)
                     else Stored(Duplicate, BodyDigest(body))
    {
      var digest := BodyDigest(body);
      if fault.BeforeCommit? { return Refused(StoreFailed); }
      var previous := FindRow(rows, event.id);
      var status;
      if previous.Some? {
        OnlyRow(rows, previous.value);
        if IsCorrupt(previous.value) { return Refused(Corrupt); }
        if previous.value.digest != digest { return Refused(DifferentBytes); }
        status := Duplicate;
      } else {
        rows := rows + [Row(event.id, digest, body)];
        status := Accepted;
      }
      if fault.AfterCommit? { return Refused(StoreFailed); }
      r := Stored(status, digest);
    }
  }

  lemma OnlyRow(rows: seq<Row>, row: Row)
    requires KeyedById(rows) && row in rows
    ensures forall other :: other in rows && other.eventId == row.eventId ==> other == row
  {}

  /** What `Accept` does to the rows, as a function. */
  function AcceptRows(rows: seq<Row>, e: Event, body: Body, fault: Fault): seq<Row> {
    if fault.BeforeCommit? || FindRow(rows, e.id).Some? then rows
    else rows + [Row(e.id, BodyDigest(body), body)]
  }

  function AcceptResult(rows: seq<Row>, e: Event, body: Body, fault: Fault): Accepting {
    if fault.BeforeCommit? then Refused(StoreFailed) else
    match FindRow(rows, e.id)
    case None => if fault.AfterCommit? then Refused(StoreFailed) else Stored(Accepted, BodyDigest(body))
    case Some(row) =>
      if IsCorrupt(row) then Refused(Corrupt)
      else if row.payload != body then Refused(DifferentBytes)
      else if fault.AfterCommit? then Refused(StoreFailed)
      else Stored(Duplicate, BodyDigest(body))
  }

  // ---- The POST handler ------------------------------------------------------------------------

  const MAX_BODY := 8192

  /** The parts of an HTTP request the handler looks at; `received` is what the stream holds. */
  datatype Http = Http(path: string, chunked: bool, length: Option<nat>, json: bool,
                       received: nat, signed: Request)

  datatype Answer = Refusal(code: int) | Acknowledged(code: int, ack: Ack)

  /** Everything refused before authentication. */
  function EarlyRefusal(h: Http): Option<int> {
    if h.path != "/v1/backup-alerts" then Some(404)
    else if h.chunked || h.length.None? || h.length.value > 999999 then Some(400)
    else if !(0 < h.length.value <= MAX_BODY) then Some(413)
    else if !h.json then Some(400)
    else if h.received < h.length.value then Some(400)
    else None
  }

  class Handler {
    const inbox: Inbox
    const key: nat

    constructor (inbox: Inbox, key: nat)
      ensures this.inbox == inbox && this.key == key
    {
      this.inbox, this.key := inbox, key;
    }

    method Post(h: Http, now: int, fault: Fault) returns (answer: Answer)
      requires inbox.Valid()
      modifies inbox
      ensures inbox.Valid()
      ensures answer == AnswerTo(old(inbox.rows), h, key, now, fault)
      ensures inbox.rows == RowsAfter(old(inbox.rows), h, key, now, fault)
    {
      var early := EarlyRefusal(h);
      if early.Some? { return Refusal(early.value); }
      var event := VerifyEvent(h.signed, key, now);
      if event.None? { return Refusal(401); }
      ghost var found := FindRow(inbox.rows, event.value.id);
      var stored := inbox.Accept(event.value, h.signed.body, fault);
      match stored {
        case Stored(status, digest) =>
          var ack := MakeAck(event.value.id, digest, status, key);
          answer := Acknowledged(if status.Accepted? then 201 else 200, ack);
        case Refused(why) =>
          answer := Refusal(if why.DifferentBytes? then 409 else 503);
      }
    }
  }

  function RowsAfter(rows: seq<Row>, h: Http, key: nat, now: int, fault: Fault): seq<Row> {
    if EarlyRefusal(h).Some? then rows else
    match VerifyEvent(h.signed, key, now)
    case None => rows
    case Some(e) => AcceptRows(rows, e, h.signed.body, fault)
  }

  function AnswerTo(rows: seq<Row>, h: Http, key: nat, now: int, fault: Fault): Answer {
    if EarlyRefusal(h).Some? then Refusal(EarlyRefusal(h).value) else
    match VerifyEvent(h.signed, key, now)
    case None => Refusal(401)
    case Some(e) =>
      match AcceptResult(rows, e, h.signed.body, fault)
      case Stored(status, digest) =>
        Acknowledged(if status.Accepted? then 201 else 200, MakeAck(e.id, digest, status, key))
      case Refused(why) => Refusal(if why.DifferentBytes? then 409 else 503)
  }
}
