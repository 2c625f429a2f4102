/** The Python webhook receiver in front of the SQLite inbox, and its acknowledgements over runs. */
module PythonReceivers {
  import opened Common
  import opened LedgerValidation
  import opened SqliteInboxes
  import opened Receivers

  datatype PythonConfig = PythonConfig(decode: string -> Body, limit: nat)

  function LedgerRow(req: Request, e: Ledger): Row {
    Row(req.outboxID, Facts("ledger", e.eventID, e.businessID, Some(e.sequence), req.raw))
  }

  function NotificationRow(req: Request, n: Notification): Row {
    Row(req.outboxID, Facts("notification", req.outboxID, n.businessID, None, req.raw))
  }

  /** The row a request hands to the table, if it gets that far. */
  ghost function DispatchedRow(cfg: PythonConfig, req: Request): Option<Row> {
    if !req.authorized || req.outboxID == "" || req.raw == "" || |req.raw| > cfg.limit then None
    else match cfg.decode(req.raw)
      case LedgerBody(Some(e)) => if ValidLedger(e) then Some(LedgerRow(req, e)) else None
      case NotificationBody(Some(n)) => if ValidNotification(n) then Some(NotificationRow(req, n)) else None
      case _ => None
  }

  ghost function PythonRefusal(cfg: PythonConfig, req: Request): int {
    if !req.authorized then 401
    else if req.outboxID == "" || req.raw == "" || cfg.decode(req.raw).NotJson? then 400
    else if |req.raw| > cfg.limit then 413
    else if cfg.decode(req.raw).NotAnObject? then 400
    else 422
  }

  ghost function PythonRespond(cfg: PythonConfig, rows: seq<Row>, req: Request): (Response, seq<Row>) {
    var dispatched := DispatchedRow(cfg, req);
    if dispatched.None? then (Response(PythonRefusal(cfg, req), None), rows)
    else
      var (ok, rows') := TablePersist(rows, dispatched.value);
      (if ok then Response(204, dispatched.value.facts.sequence) else Response(500, None), rows')
  }

  class PythonReceiver {
    const decode: string -> Body
    const limit: nat
    const inbox: SqliteInbox

    ghost function Settings(): PythonConfig {
      PythonConfig(decode, limit)
    }

    constructor (decode: string -> Body, limit: nat, inbox: SqliteInbox)
      ensures this.decode == decode && this.limit == limit && this.inbox == inbox
    {
      this.decode, this.limit, this.inbox := decode, limit, inbox;
    }

    method Receive(req: Request) returns (response: Response)
      requires inbox.Valid()
      modifies inbox
      ensures inbox.Valid()
      ensures (response, inbox.rows) == PythonRespond(Settings(), old(inbox.rows), req)
    {
      if !req.authorized {
        return Response(401, None);
      }
      if req.outboxID == "" {
        return Response(400, None);
      }
      if req.raw == "" {
        return Response(400, None);
      }
      var decoded := decode(req.raw);
      if decoded.NotJson? {
        return Response(400, None);
      }
      if |req.raw| > limit {
        return Response(413, None);
      }
      match decoded {
        case NotAnObject =>
          return Response(400, None);
        case LedgerBody(event) =>
          if event.None? {
            return Response(422, None);
          }
          var verdict := ValidateLedgerPython(event.value);
          if verdict != Valid {
            return Response(422, None);
          }
          var ok := inbox.Persist(LedgerRow(req, event.value));
          if !ok {
            return Response(500, None);
          }
          return Response(204, Some(event.value.sequence));
        case NotificationBody(note) =>
          if note.None? {
            return Response(422, None);
          }
          var valid := ValidateNotificationPython(note.value);
          if !valid {
            return Response(422, None);
          }
          var ok := inbox.Persist(NotificationRow(req, note.value));
          if !ok {
            return Response(500, None);
          }
          return Response(204, None);
        case OtherObject =>
          return Response(422, None);
      }
    }
  }

  /** A request that was answered, one during which the process died before or after COMMIT, or one
      that the database failed before or after it. */
  datatype PythonIncident =
    | Answered(req: Request)
    | Killed(req: Request, committed: bool)
    | DatabaseFailed(req: Request, committed: bool)

  ghost function FacePython(cfg: PythonConfig, rows: seq<Row>, i: PythonIncident): (Option<Response>, seq<Row>) {
    var (response, rows') := PythonRespond(cfg, rows, i.req);
    match i
    case Answered(_) => (Some(response), rows')
    case Killed(_, committed) => (None, if committed then rows' else rows)
    case DatabaseFailed(req, committed) =>
      var status := if DispatchedRow(cfg, req).None? then PythonRefusal(cfg, req) else 500;
      (Some(Response(status, None)), if committed then rows' else rows)
  }

  ghost function ServePython(cfg: PythonConfig, rows: seq<Row>, incidents: seq<PythonIncident>)
    : (r: (seq<Option<Response>>, seq<Row>))
    ensures |r.0| == |incidents|
    decreases |incidents|
  {
    if incidents == [] then ([], rows)
    else
      var (reply, rows1) := FacePython(cfg, rows, incidents[0]);
      var (replies, rows2) := ServePython(cfg, rows1, incidents[1..]);
      ([reply] + replies, rows2)
  }

  /** Some row holds these facts. */
  ghost predicate RowKept(rows: seq<Row>, stream: string, eventID: string, businessID: string,
                          sequence: Option<int>, raw: string) {
    exists i :: 0 <= i < |rows|
      && rows[i].facts.stream == stream && rows[i].facts.eventID == eventID && rows[i].facts.businessID == businessID
      && rows[i].facts.sequence == sequence && rows[i].facts.payload == raw
  }

  ghost predicate EarnedRow(cfg: PythonConfig, rows: seq<Row>, req: Request, n: int) {
    match cfg.decode(req.raw)
    case LedgerBody(Some(e)) =>
      ValidLedger(e) && e.sequence == n && RowKept(rows, "ledger", e.eventID, e.businessID, Some(n), req.raw)
    case _ => false
  }

  /** The body was a valid event of either stream, and some row holds it with its exact raw body. */
  ghost predicate TakenRow(cfg: PythonConfig, rows: seq<Row>, req: Request) {
    match cfg.decode(req.raw)
    case LedgerBody(Some(e)) =>
      ValidLedger(e) && RowKept(rows, "ledger", e.eventID, e.businessID, Some(e.sequence), req.raw)
    case NotificationBody(Some(n)) =>
      ValidNotification(n) && RowKept(rows, "notification", req.outboxID, n.businessID, None, req.raw)
    case _ => false
  }

  lemma RowKeptStays(rows: seq<Row>, rows': seq<Row>, stream: string, eventID: string, businessID: string,
                     sequence: Option<int>, raw: string)
    requires RowKept(rows, stream, eventID, businessID, sequence, raw) && rows <= rows'
    ensures RowKept(rows', stream, eventID, businessID, sequence, raw)
  {
    var i :| 0 <= i < |rows| && rows[i].facts == Facts(stream, eventID, businessID, sequence, raw);
    assert rows'[i] == rows[i];
  }

  lemma TakenRowStays(cfg: PythonConfig, rows: seq<Row>, rows': seq<Row>, req: Request)
    requires TakenRow(cfg, rows, req) && rows <= rows'
    ensures TakenRow(cfg, rows', req)
  {
    match cfg.decode(req.raw)
    case LedgerBody(Some(e)) => RowKeptStays(rows, rows', "ledger", e.eventID, e.businessID, Some(e.sequence), req.raw);
    case NotificationBody(Some(n)) => RowKeptStays(rows, rows', "notification", req.outboxID, n.businessID, None, req.raw);
    case _ =>
  }

  lemma PythonSuccessIsTakenAtOnce(cfg: PythonConfig, rows: seq<Row>, req: Request)
    requires Unique(rows)
    ensures var (response, rows') := PythonRespond(cfg, rows, req);
            response.status == 204 ==> TakenRow(cfg, rows', req)
  {
    var dispatched := DispatchedRow(cfg, req);
    if dispatched.Some? {
      hide ValidLedger, ValidNotification, TablePersist, Unique;
      TablePersistKeepsTable(rows, dispatched.value);
    }
  }

  lemma FacePythonKeepsTable(cfg: PythonConfig, rows: seq<Row>, i: PythonIncident)
    requires Unique(rows)
    ensures Unique(FacePython(cfg, rows, i).1) && rows <= FacePython(cfg, rows, i).1
  {
    var dispatched := DispatchedRow(cfg, i.req);
    if dispatched.Some? { TablePersistKeepsTable(rows, dispatched.value); }
  }

  lemma {:induction false} ServePythonKeepsTable(cfg: PythonConfig, rows: seq<Row>, incidents: seq<PythonIncident>)
    requires Unique(rows)
    ensures Unique(ServePython(cfg, rows, incidents).1) && rows <= ServePython(cfg, rows, incidents).1
    decreases |incidents|
  {
    if incidents != [] {
      FacePythonKeepsTable(cfg, rows, incidents[0]);
      ServePythonKeepsTable(cfg, FacePython(cfg, rows, incidents[0]).1, incidents[1..]);
    }
  }

  /** Nothing is lost: over every run of requests, database failures and kills, each request answered
      204 carried a valid event of either stream, which the table holds with its exact raw body. */
  lemma {:induction false} PythonSuccessesAreKept(
    cfg: PythonConfig, rows: seq<Row>, incidents: seq<PythonIncident>, i: nat)
    requires Unique(rows) && i < |incidents|
    requires ServePython(cfg, rows, incidents).0[i].Some?
    requires ServePython(cfg, rows, incidents).0[i].value.status == 204
    ensures incidents[i].Answered? && TakenRow(cfg, ServePython(cfg, rows, incidents).1, incidents[i].req)
    decreases |incidents|
  {
    hide TakenRow, PythonRespond, Unique;
    var (reply, rows1) := FacePython(cfg, rows, incidents[0]);
    FacePythonKeepsTable(cfg, rows, incidents[0]);
    if i > 0 {
      PythonSuccessesAreKept(cfg, rows1, incidents[1..], i - 1);
    } else {
      PythonSuccessIsTakenAtOnce(cfg, rows, incidents[0].req);
      ServePythonKeepsTable(cfg, rows1, incidents[1..]);
      TakenRowStays(cfg, rows1, ServePython(cfg, rows1, incidents[1..]).1, incidents[0].req);
    }
  }

  /** Acknowledgement safety for Python: every acknowledged event is in the table at the end of the
      run, with its own facts and the exact raw body. */
  lemma {:induction false} PythonAcksAreSafe(
    cfg: PythonConfig, rows: seq<Row>, incidents: seq<PythonIncident>, i: nat, n: int)
    requires Unique(rows) && i < |incidents|
    requires ServePython(cfg, rows, incidents).0[i].Some?
    requires ServePython(cfg, rows, incidents).0[i].value.ack == Some(n)
    ensures incidents[i].Answered? && ServePython(cfg, rows, incidents).0[i].value.status == 204
    ensures EarnedRow(cfg, ServePython(cfg, rows, incidents).1, incidents[i].req, n)
    decreases |incidents|
  {
    hide RowKept, PythonRespond, Unique, ValidLedger, ValidNotification;
    var (reply, rows1) := FacePython(cfg, rows, incidents[0]);
    FacePythonKeepsTable(cfg, rows, incidents[0]);
    if i > 0 {
      PythonAcksAreSafe(cfg, rows1, incidents[1..], i - 1, n);
    } else {
      PythonAckExactlyOnLedgerSuccess(cfg, rows, incidents[0].req);
      PythonSuccessesAreKept(cfg, rows, incidents, 0);
    }
  }

  /** Exactly the successful ledger responses acknowledge, and with the sequence of the event. */
  lemma PythonAckExactlyOnLedgerSuccess(cfg: PythonConfig, rows: seq<Row>, req: Request)
    ensures var (response, body) := (PythonRespond(cfg, rows, req).0, cfg.decode(req.raw));
            && (response.ack.Some? <==> response.status == 204 && body.LedgerBody?)
            && (response.ack.Some? ==> body.event.Some? && response.ack == Some(body.event.value.sequence))
  {
    var dispatched := DispatchedRow(cfg, req);
  }

  /** Exactly when each refusal is given; none touches the table. JSON is parsed before the limit is
      looked at, and only then must it be an object. */
  lemma PythonRefusalsExactly(cfg: PythonConfig, rows: seq<Row>, req: Request)
    ensures var (status, body) := (PythonRespond(cfg, rows, req).0.status, cfg.decode(req.raw));
            var readable := req.authorized && req.outboxID != "" && |req.raw| > 0 && !body.NotJson?;
            && (status == 401 <==> !req.authorized)
            && (status == 413 <==> readable && |req.raw| > cfg.limit)
            && (status == 400 <==> req.authorized && (!readable || (|req.raw| <= cfg.limit && body.NotAnObject?)))
            && (status == 422 <==>
                  && readable && |req.raw| <= cfg.limit
                  && (|| body.OtherObject?
                      || (body.LedgerBody? && !(body.event.Some? && ValidLedger(body.event.value)))
                      || (body.NotificationBody? && !(body.note.Some? && ValidNotification(body.note.value)))))
            && (status in {400, 401, 413, 422} ==> PythonRespond(cfg, rows, req) == (Response(status, None), rows))
  {
    hide ValidLedger, ValidNotification, TablePersist;
    assert |req.raw| == 0 <==> req.raw == "";
  }

  /** A valid event gets 204 or 500, with the table as persisting exactly these facts leaves it. */
  lemma PythonValidEventsExactly(cfg: PythonConfig, rows: seq<Row>, req: Request)
    requires req.authorized && req.outboxID != "" && 0 < |req.raw| <= cfg.limit
    ensures var body := cfg.decode(req.raw);
            body.LedgerBody? && body.event.Some? && ValidLedger(body.event.value) ==>
              var e := body.event.value;
              var (ok, rows') := TablePersist(rows,
                Row(req.outboxID, Facts("ledger", e.eventID, e.businessID, Some(e.sequence), req.raw)));
              PythonRespond(cfg, rows, req) == (if ok then Response(204, Some(e.sequence)) else Response(500, None), rows')
    ensures var body := cfg.decode(req.raw);
            body.NotificationBody? && body.note.Some? && ValidNotification(body.note.value) ==>
              var n := body.note.value;
              var (ok, rows') := TablePersist(rows,
                Row(req.outboxID, Facts("notification", req.outboxID, n.businessID, None, req.raw)));
              PythonRespond(cfg, rows, req) == (Response(if ok then 204 else 500, None), rows')
  {
    hide ValidLedger, ValidNotification, TablePersist;
  }
}
