/**
 The Go webhook receiver in front of the file inbox: what one request does, and what whole runs
 of requests, crashes and restarts guarantee about acknowledgements.
 */
module Receivers {
  import opened Common
  import opened InboxModel
  import opened InboxSteps
  import opened FileInboxes
  import opened LedgerValidation

  /** A body after JSON decoding: which stream its keys select, and the record if the types fit. */
  datatype Body = NotJson | NotAnObject | LedgerBody(event: Option<Ledger>) | NotificationBody(note: Option<Notification>) | OtherObject

  /** One HTTP request: the bearer verdict, the trimmed outbox header and the raw body. */
  datatype Request = Request(authorized: bool, outboxID: string, raw: string)

  /** A response: its status and the sequence in X-Mizan-Ack-Sequence, if that header is set. */
  datatype Response = Response(status: int, ack: Option<int>)

  datatype Config = Config(encode: Encoder, decode: string -> Body, limit: nat, configured: bool)

  function LedgerDelivery(req: Request, e: Ledger, now: int): Delivery {
    Delivery(req.outboxID, "ledger", e.eventID, e.businessID, e.sequence, req.raw, now)
  }

  function NotificationDelivery(req: Request, n: Notification, now: int): Delivery {
    Delivery(req.outboxID, "notification", req.outboxID, n.businessID, 0, req.raw, now)
  }

  predicate PassesTransport(cfg: Config, req: Request) {
    req.raw != "" && |req.raw| <= cfg.limit && req.authorized && req.outboxID != "" && cfg.configured
  }

  /** The delivery a request hands to the inbox, if it gets that far. */
  ghost function Dispatched(cfg: Config, req: Request, now: int): Option<Delivery> {
    if !PassesTransport(cfg, req) then None
    else match cfg.decode(req.raw)
      case LedgerBody(Some(e)) => if ValidLedger(e) then Some(LedgerDelivery(req, e, now)) else None
      case NotificationBody(Some(n)) => if ValidNotification(n) then Some(NotificationDelivery(req, n, now)) else None
      case _ => None
  }

  /** The status of a request that never reaches a handler. */
  ghost function RefusalStatus(cfg: Config, req: Request): int {
    if req.raw == "" then 400
    else if |req.raw| > cfg.limit then 413
    else if !req.authorized then 401
    else if req.outboxID == "" then 400
    else if !cfg.configured then 503
    else if cfg.decode(req.raw).NotJson? || cfg.decode(req.raw).NotAnObject? then 400
    else 422
  }

  /** One request against the inbox files. */
  ghost function Respond(cfg: Config, f: Files, req: Request, now: int): (Response, Files) {
    var dispatched := Dispatched(cfg, req, now);
    if dispatched.None? then (Response(RefusalStatus(cfg, req), None), f)
    else
      var (ok, f') := AtomicPersist(cfg.encode, f, dispatched.value);
      var ack := if dispatched.value.stream == "ledger" then Some(dispatched.value.sequence) else None;
      (if ok then Response(204, ack) else Response(500, None), f')
  }

  class WebhookReceiver {
    const decode: string -> Body
    const limit: nat
    const configured: bool
    const inbox: FileInbox

    ghost function Settings(): Config {
      Config(inbox.encode, decode, limit, configured)
    }

    constructor (decode: string -> Body, limit: nat, configured: bool, inbox: FileInbox)
      ensures this.decode == decode && this.limit == limit && this.configured == configured && this.inbox == inbox
    {
      this.decode, this.limit, this.configured, this.inbox := decode, limit, configured, inbox;
    }

    /** Checks in order, then the handler of the selected stream, then the acknowledgement. */
    method Receive(req: Request, now: int) returns (response: Response)
      requires inbox.Valid()
      modifies inbox
      ensures inbox.Valid()
      ensures (response, inbox.State()) == Respond(Settings(), old(inbox.State()), req, now)
    {
      if |req.raw| == 0 {
        return Response(400, None);
      }
      if |req.raw| > limit {
        return Response(413, None);
      }
      if !req.authorized {
        return Response(401, None);
      }
      if req.outboxID == "" {
        return Response(400, None);
      }
      if !configured {
        return Response(503, None);
      }
      match decode(req.raw) {
        case NotJson =>
          return Response(400, None);
        case NotAnObject =>
          return Response(400, None);
        case LedgerBody(event) =>
          if event.None? {
            return Response(422, None);
          }
          var verdict := ValidateLedgerWebhook(event.value);
          if verdict != Valid {
            return Response(422, None);
          }
          var result := inbox.Persist(LedgerDelivery(req, event.value, now));
          if result != Accepted {
            return Response(500, None);
          }
          return Response(204, Some(event.value.sequence));
        case NotificationBody(note) =>
          if note.None? {
            return Response(422, None);
          }
          var valid := ValidateNotificationWebhook(note.value);
          if !valid {
            return Response(422, None);
          }
          var result := inbox.Persist(NotificationDelivery(req, note.value, now));
          if result != Accepted {
            return Response(500, None);
          }
          return Response(204, None);
        case OtherObject =>
          return Response(422, None);
      }
    }
  }

  // ---- Whole runs ----

  /** A request that was answered, one during which the process died after some file calls, or one
      during which a file call failed after so many had taken effect. */
  datatype Incident =
    | Handled(req: Request, now: int)
    | Interrupted(req: Request, now: int, calls: nat)
    | Failed(req: Request, now: int, calls: nat)

  /** The files a handler leaves that did not get beyond some file calls. */
  ghost function FilesAfter(cfg: Config, f: Files, req: Request, now: int, calls: nat): Files {
    var dispatched := Dispatched(cfg, req, now);
    if dispatched.None? then f else Solo(cfg.encode, f, dispatched.value, calls).0
  }

  ghost function Face(cfg: Config, f: Files, i: Incident): (Option<Response>, Files) {
    match i
    case Handled(req, now) => var (response, f') := Respond(cfg, f, req, now); (Some(response), f')
    case Interrupted(req, now, calls) => (None, FilesAfter(cfg, f, req, now, calls))
    case Failed(req, now, calls) =>
      var status := if Dispatched(cfg, req, now).None? then RefusalStatus(cfg, req) else 500;
      (Some(Response(status, None)), FilesAfter(cfg, f, req, now, calls))
  }

  ghost function Serve(cfg: Config, f: Files, incidents: seq<Incident>): (r: (seq<Option<Response>>, Files))
    ensures |r.0| == |incidents|
    decreases |incidents|
  {
    if incidents == [] then ([], f)
    else
      var (reply, f1) := Face(cfg, f, incidents[0]);
      var (replies, f2) := Serve(cfg, f1, incidents[1..]);
      ([reply] + replies, f2)
  }

  lemma FaceKeepsInbox(cfg: Config, f: Files, i: Incident)
    requires Stable(cfg.encode) && Coherent(cfg.encode, f)
    ensures Coherent(cfg.encode, Face(cfg, f, i).1) && FilesGrow(f, Face(cfg, f, i).1)
  {
    var dispatched := Dispatched(cfg, i.req, i.now);
    if dispatched.Some? {
      PersistKeepsInbox(cfg.encode, f, dispatched.value);
      if !i.Handled? { CutShortKeepsInbox(cfg.encode, f, dispatched.value, i.calls); }
    }
  }

  lemma {:induction false} ServeKeepsInbox(cfg: Config, f: Files, incidents: seq<Incident>)
    requires Stable(cfg.encode) && Coherent(cfg.encode, f)
    ensures Coherent(cfg.encode, Serve(cfg, f, incidents).1) && FilesGrow(f, Serve(cfg, f, incidents).1)
    decreases |incidents|
  {
    if incidents != [] {
      FaceKeepsInbox(cfg, f, incidents[0]);
      ServeKeepsInbox(cfg, Face(cfg, f, incidents[0]).1, incidents[1..]);
    }
  }

  /** The files bind the outbox ID to these facts, and hold the event with its encoded payload. */
  ghost predicate Kept(cfg: Config, f: Files, outboxID: string, stream: string, eventID: string,
                       businessID: string, sequence: int, raw: string) {
    var path := stream + ":" + eventID;
    && outboxID in f.outbox && f.outbox[outboxID] == Identity(stream, eventID, businessID, sequence, raw)
    && path in f.events && cfg.encode(raw).Some?
    && var r := f.events[path];
       && r.stream == stream && r.eventID == eventID && r.businessID == businessID
       && r.sequence == sequence && r.payload == cfg.encode(raw).value
  }

  /** The body was a valid balanced ledger event with sequence n, and these files hold it. */
  ghost predicate Earned(cfg: Config, f: Files, req: Request, n: int) {
    match cfg.decode(req.raw)
    case LedgerBody(Some(e)) =>
      ValidLedger(e) && e.sequence == n && Kept(cfg, f, req.outboxID, "ledger", e.eventID, e.businessID, n, req.raw)
    case _ => false
  }

  /** The body was a valid event of either stream, and these files hold it. A notification is its own
      delivery: the outbox ID is its event ID. */
  ghost predicate Taken(cfg: Config, f: Files, req: Request) {
    match cfg.decode(req.raw)
    case LedgerBody(Some(e)) =>
      ValidLedger(e) && Kept(cfg, f, req.outboxID, "ledger", e.eventID, e.businessID, e.sequence, req.raw)
    case NotificationBody(Some(n)) =>
      ValidNotification(n) && Kept(cfg, f, req.outboxID, "notification", req.outboxID, n.businessID, 0, req.raw)
    case _ => false
  }

  lemma KeptStays(cfg: Config, f: Files, f': Files, outboxID: string, stream: string, eventID: string,
                  businessID: string, sequence: int, raw: string)
    requires FilesGrow(f, f') && Kept(cfg, f, outboxID, stream, eventID, businessID, sequence, raw)
    ensures Kept(cfg, f', outboxID, stream, eventID, businessID, sequence, raw)
  {
  }

  lemma TakenStays(cfg: Config, f: Files, f': Files, req: Request)
    requires FilesGrow(f, f') && Taken(cfg, f, req)
    ensures Taken(cfg, f', req)
  {
    match cfg.decode(req.raw)
    case LedgerBody(Some(e)) =>
      KeptStays(cfg, f, f', req.outboxID, "ledger", e.eventID, e.businessID, e.sequence, req.raw);
    case NotificationBody(Some(n)) =>
      KeptStays(cfg, f, f', req.outboxID, "notification", req.outboxID, n.businessID, 0, req.raw);
    case _ =>
  }

  /** A success means that the event is held; an acknowledgement, that it was a ledger event. */
  lemma SuccessIsTakenAtOnce(cfg: Config, f: Files, req: Request, now: int)
    requires Stable(cfg.encode) && Coherent(cfg.encode, f)
    ensures var (response, f') := Respond(cfg, f, req, now);
            response.status == 204 ==> Taken(cfg, f', req)
  {
    var dispatched := Dispatched(cfg, req, now);
    if dispatched.Some? {
      hide ValidLedger, ValidNotification, Coherent, Stable, Grows;
      PersistKeepsInbox(cfg.encode, f, dispatched.value);
    }
  }

  lemma AckIsEarnedAtOnce(cfg: Config, f: Files, req: Request, now: int)
    requires Stable(cfg.encode) && Coherent(cfg.encode, f)
    ensures var (response, f') := Respond(cfg, f, req, now);
            response.ack.Some? ==> response.status == 204 && Earned(cfg, f', req, response.ack.value)
  {
    hide ValidLedger, ValidNotification, Coherent, Stable, Kept;
    SuccessIsTakenAtOnce(cfg, f, req, now);
    AckExactlyOnLedgerSuccess(cfg, f, req, now);
  }

  /** Nothing is lost: over every run of requests, failing files, crashes and restarts, each request
      answered 204 carried a valid event of either stream, which the inbox holds at the end. */
  lemma {:induction false} SuccessesAreKept(cfg: Config, f: Files, incidents: seq<Incident>, i: nat)
    requires Stable(cfg.encode) && Coherent(cfg.encode, f) && i < |incidents|
    requires Serve(cfg, f, incidents).0[i].Some? && Serve(cfg, f, incidents).0[i].value.status == 204
    ensures incidents[i].Handled? && Taken(cfg, Serve(cfg, f, incidents).1, incidents[i].req)
    decreases |incidents|
  {
    hide Taken, Respond, Coherent, Stable;
    var (reply, f1) := Face(cfg, f, incidents[0]);
    FaceKeepsInbox(cfg, f, incidents[0]);
    if i > 0 {
      SuccessesAreKept(cfg, f1, incidents[1..], i - 1);
    } else {
      SuccessIsTakenAtOnce(cfg, f, incidents[0].req, incidents[0].now);
      ServeKeepsInbox(cfg, f1, incidents[1..]);
      TakenStays(cfg, f1, Serve(cfg, f1, incidents[1..]).1, incidents[0].req);
    }
  }

  /** Acknowledgement safety: over every run of requests, failing files, crashes and restarts, each
      response that carries a sequence was earned, and still is at the end of the run. */
  lemma {:induction false} AcksAreSafe(cfg: Config, f: Files, incidents: seq<Incident>, i: nat, n: int)
    requires Stable(cfg.encode) && Coherent(cfg.encode, f) && i < |incidents|
    requires Serve(cfg, f, incidents).0[i].Some? && Serve(cfg, f, incidents).0[i].value.ack == Some(n)
    ensures incidents[i].Handled? && Serve(cfg, f, incidents).0[i].value.status == 204
    ensures Earned(cfg, Serve(cfg, f, incidents).1, incidents[i].req, n)
    decreases |incidents|
  {
    hide Kept, Respond, Coherent, Stable, ValidLedger, Grows;
    var (reply, f1) := Face(cfg, f, incidents[0]);
    FaceKeepsInbox(cfg, f, incidents[0]);
    if i > 0 {
      AcksAreSafe(cfg, f1, incidents[1..], i - 1, n);
    } else {
      AckIsEarnedAtOnce(cfg, f, incidents[0].req, incidents[0].now);
      ServeKeepsInbox(cfg, f1, incidents[1..]);
      var e := cfg.decode(incidents[0].req.raw).event.value;
      KeptStays(cfg, f1, Serve(cfg, f1, incidents[1..]).1, incidents[0].req.outboxID, "ledger", e.eventID,
                e.businessID, n, incidents[0].req.raw);
    }
  }

  /** No error and no notification response ever acknowledges a sequence; a ledger 204 always does. */
  lemma AckExactlyOnLedgerSuccess(cfg: Config, f: Files, req: Request, now: int)
    ensures var response := Respond(cfg, f, req, now).0;
            response.ack.Some? <==> response.status == 204 && cfg.decode(req.raw).LedgerBody?
  {
    var dispatched := Dispatched(cfg, req, now);
    if dispatched.Some? && dispatched.value.stream == "notification" {
      assert "notification"[0] != "ledger"[0];
    }
  }

  /** The checks before the body is decoded, in words of the request. */
  predicate Admitted(cfg: Config, req: Request) {
    0 < |req.raw| <= cfg.limit && req.authorized && req.outboxID != "" && cfg.configured
  }

  /** Exactly when each refusal is given; none touches the inbox. */
  lemma RefusalsExactly(cfg: Config, f: Files, req: Request, now: int)
    ensures var (status, body) := (Respond(cfg, f, req, now).0.status, cfg.decode(req.raw));
            && (status == 413 <==> |req.raw| > cfg.limit && |req.raw| > 0)
            && (status == 401 <==> 0 < |req.raw| <= cfg.limit && !req.authorized)
            && (status == 503 <==> 0 < |req.raw| <= cfg.limit && req.authorized && req.outboxID != "" && !cfg.configured)
            && (status == 400 <==>
                  || |req.raw| == 0
                  || (0 < |req.raw| <= cfg.limit && req.authorized && req.outboxID == "")
                  || (Admitted(cfg, req) && (body.NotJson? || body.NotAnObject?)))
            && (status == 422 <==>
                  && Admitted(cfg, req)
                  && (|| body.OtherObject?
                      || (body.LedgerBody? && !(body.event.Some? && ValidLedger(body.event.value)))
                      || (body.NotificationBody? && !(body.note.Some? && ValidNotification(body.note.value)))))
            && (status in {400, 401, 413, 422, 503} ==> Respond(cfg, f, req, now) == (Response(status, None), f))
  {
    hide ValidLedger, ValidNotification, AtomicPersist;
    assert |req.raw| == 0 <==> req.raw == "";
  }

  /** A valid event gets 204 or 500, with the inbox as persisting exactly these facts leaves it. */
  lemma ValidEventsExactly(cfg: Config, f: Files, req: Request, now: int)
    requires Admitted(cfg, req)
    ensures var body := cfg.decode(req.raw);
            body.LedgerBody? && body.event.Some? && ValidLedger(body.event.value) ==>
              var e := body.event.value;
              var (ok, f') := AtomicPersist(cfg.encode, f,
                Delivery(req.outboxID, "ledger", e.eventID, e.businessID, e.sequence, req.raw, now));
              Respond(cfg, f, req, now) == (if ok then Response(204, Some(e.sequence)) else Response(500, None), f')
    ensures var body := cfg.decode(req.raw);
            body.NotificationBody? && body.note.Some? && ValidNotification(body.note.value) ==>
              var n := body.note.value;
              var (ok, f') := AtomicPersist(cfg.encode, f,
                Delivery(req.outboxID, "notification", req.outboxID, n.businessID, 0, req.raw, now));
              Respond(cfg, f, req, now) == (Response(if ok then 204 else 500, None), f')
  {
    hide ValidLedger, ValidNotification, AtomicPersist;
    assert "notification"[0] != "ledger"[0];
  }

  /** A valid request whose body is stored as it is, interrupted or failed at any file call, is
      answered 204 when the same request comes again, if the inbox would have accepted it at first. */
  lemma InterruptedRequestRecovers(cfg: Config, f: Files, i: Incident, later: int)
    requires Stable(cfg.encode) && Coherent(cfg.encode, f) && !i.Handled?
    requires Respond(cfg, f, i.req, i.now).0.status == 204 && cfg.encode(i.req.raw) == Some(i.req.raw)
    ensures Respond(cfg, Face(cfg, f, i).1, i.req, later).0 == Respond(cfg, f, i.req, i.now).0
  {
    var d := Dispatched(cfg, i.req, i.now).value;
    RedeliveryRecovers(cfg.encode, f, d, i.calls, later);
    assert Dispatched(cfg, i.req, later) == Some(d.(receivedAt := later));
  }
}
