/**
 The durable inbox as values: what one delivery is, what the two write-once indices of the
 Go file inbox hold, and the one atomic operation that persisting a delivery amounts to.

 A digest is identified with the value it is taken of (it is only ever compared for equality
 or used as a file name), so the outbox index is keyed by outbox ID, the event index by the
 text `stream:event`, and an alias carries the delivered payload itself.
 */
module InboxModel {
  import opened Common

  /** What a handler closure passes to the inbox. */
  datatype Delivery = Delivery(
    outboxID: string, stream: string, eventID: string,
    businessID: string, sequence: int, payload: string, receivedAt: int)

  /** The facts that must agree for two deliveries to be the same event. */
  datatype Identity = Identity(
    stream: string, eventID: string, businessID: string, sequence: int, payload: string)

  /** How the JSON encoder writes a raw payload; None when the payload is not JSON. */
  type Encoder = string -> Option<string>

  /** Both indices: event files hold the encoded delivery, alias files the raw identity. */
  datatype Files = Files(events: map<string, Delivery>, outbox: map<string, Identity>)

  datatype Rejection = IncompleteIdentity | NotEncodable | OutboxReused | EventReused | StorageFault

  datatype Outcome = Accepted | Rejected(reason: Rejection)

  const NO_FILES: Files := Files(map[], map[])

  /** Encoding twice is encoding once. */
  ghost predicate Stable(encode: Encoder) {
    forall p, q :: encode(p) == Some(q) ==> encode(q) == Some(q)
  }

  function EventPath(stream: string, eventID: string): string {
    stream + ":" + eventID
  }

  function PathOf(d: Delivery): string {
    EventPath(d.stream, d.eventID)
  }

  predicate Complete(d: Delivery) {
    d.outboxID != "" && d.stream != "" && d.eventID != "" && d.businessID != ""
  }

  /** The identity as delivered; this is also the content of the alias file. */
  function RawIdentity(d: Delivery): Identity {
    Identity(d.stream, d.eventID, d.businessID, d.sequence, d.payload)
  }

  /** The identity as an event file can hold it. */
  function StoredIdentity(encode: Encoder, d: Delivery): Identity
    requires encode(d.payload).Some?
  {
    RawIdentity(d).(payload := encode(d.payload).value)
  }

  function EventFile(encode: Encoder, d: Delivery): Delivery
    requires encode(d.payload).Some?
  {
    d.(payload := encode(d.payload).value)
  }

  /** The encoder leaves the payload as it is: compact and HTML-escaped already. */
  predicate PayloadFixed(encode: Encoder, d: Delivery) {
    encode(d.payload) == Some(d.payload)
  }

  /** Every alias refers to an existing event with the same identity, and every event file is
      filed under its own name with a payload in stored form. */
  ghost predicate Coherent(encode: Encoder, f: Files) {
    && (forall p :: p in f.events ==> p == PathOf(f.events[p]) && PayloadFixed(encode, f.events[p]))
    && (forall o :: o in f.outbox ==> AliasResolves(encode, f, f.outbox[o]))
  }

  ghost predicate AliasResolves(encode: Encoder, f: Files, a: Identity) {
    var p := EventPath(a.stream, a.eventID);
    && p in f.events
    && encode(a.payload).Some?
    && RawIdentity(f.events[p]) == a.(payload := encode(a.payload).value)
  }

  ghost predicate FilesGrow(f: Files, f': Files) {
    Grows(f.events, f'.events) && Grows(f.outbox, f'.outbox)
  }

  /** The event of `d` is on disk under its own identity. */
  ghost predicate EventStored(encode: Encoder, f: Files, d: Delivery) {
    && PathOf(d) in f.events
    && encode(d.payload).Some?
    && RawIdentity(f.events[PathOf(d)]) == StoredIdentity(encode, d)
  }

  /** What a successful return promises: both indices know the delivery. */
  ghost predicate Durable(encode: Encoder, f: Files, d: Delivery) {
    && EventStored(encode, f, d)
    && d.outboxID in f.outbox && f.outbox[d.outboxID] == RawIdentity(d)
  }

  /** The delivery contradicts neither the outbox binding nor the event identity. */
  ghost predicate Agrees(encode: Encoder, f: Files, d: Delivery)
    requires encode(d.payload).Some?
  {
    && (d.outboxID in f.outbox ==> f.outbox[d.outboxID] == RawIdentity(d))
    && (PathOf(d) in f.events ==> RawIdentity(f.events[PathOf(d)]) == StoredIdentity(encode, d))
  }

  /** The one family of agreeing deliveries the code turns away: the event is stored, the outbox
      ID is new, and the raw payload differs from its own stored form. */
  predicate Stranded(encode: Encoder, f: Files, d: Delivery) {
    d.outboxID !in f.outbox && PathOf(d) in f.events && !PayloadFixed(encode, d)
  }

  ghost predicate Acceptable(encode: Encoder, f: Files, d: Delivery) {
    Complete(d) && encode(d.payload).Some? && Agrees(encode, f, d) && !Stranded(encode, f, d)
  }

  /** Both indices after accepting `d`; whatever was there stays. */
  function Publish(encode: Encoder, f: Files, d: Delivery): Files
    requires encode(d.payload).Some?
  {
    Files(
      if PathOf(d) in f.events then f.events else f.events[PathOf(d) := EventFile(encode, d)],
      f.outbox[d.outboxID := RawIdentity(d)])
  }

  /** The atomic operation on two maps that persisting one delivery refines. */
  ghost function AtomicPersist(encode: Encoder, f: Files, d: Delivery): (r: (bool, Files)) {
    if Acceptable(encode, f, d) then (true, Publish(encode, f, d)) else (false, f)
  }

  /** What persisting does, fact by fact. A delivery with all four names and a JSON payload succeeds
      exactly when its outbox ID is bound to these very facts, or is free and the file of the event,
      if there is one, holds them with the delivered payload. Then the outbox ID is bound to them,
      and an event that was not on disk is filed with its payload encoded and all else as delivered. */
  lemma AcceptsExactly(encode: Encoder, f: Files, d: Delivery)
    requires Stable(encode) && Coherent(encode, f)
    ensures var path := d.stream + ":" + d.eventID;
            AtomicPersist(encode, f, d).0 <==>
              && d.outboxID != "" && d.stream != "" && d.eventID != "" && d.businessID != ""
              && encode(d.payload).Some?
              && if d.outboxID in f.outbox
                 then f.outbox[d.outboxID] == Identity(d.stream, d.eventID, d.businessID, d.sequence, d.payload)
                 else path in f.events ==>
                   && f.events[path].stream == d.stream && f.events[path].eventID == d.eventID
                   && f.events[path].businessID == d.businessID && f.events[path].sequence == d.sequence
                   && f.events[path].payload == d.payload
    ensures var (ok, f') := AtomicPersist(encode, f, d);
            var path := d.stream + ":" + d.eventID;
            if !ok then f' == f
            else
              && encode(d.payload).Some?
              && f'.outbox == f.outbox[d.outboxID := Identity(d.stream, d.eventID, d.businessID, d.sequence, d.payload)]
              && f'.events == if path in f.events then f.events else f.events[path :=
                   Delivery(d.outboxID, d.stream, d.eventID, d.businessID, d.sequence, encode(d.payload).value, d.receivedAt)]
  {
    if d.outboxID in f.outbox {
      assert AliasResolves(encode, f, f.outbox[d.outboxID]);
    } else if PathOf(d) in f.events {
      assert PayloadFixed(encode, f.events[PathOf(d)]);
    }
  }

  /** Accepting keeps the indices coherent, loses nothing, and is durable; rejecting changes nothing. */
  lemma PersistKeepsInbox(encode: Encoder, f: Files, d: Delivery)
    requires Stable(encode) && Coherent(encode, f)
    ensures var (ok, f') := AtomicPersist(encode, f, d);
            && Coherent(encode, f') && FilesGrow(f, f')
            && (ok ==> Durable(encode, f', d))
            && (!ok ==> f' == f)
  {
    if Acceptable(encode, f, d) {
      var f' := Publish(encode, f, d);
      var q := encode(d.payload).value;
      assert encode(q) == Some(q);
      forall o | o in f'.outbox ensures AliasResolves(encode, f', f'.outbox[o]) {
        if o != d.outboxID { assert AliasResolves(encode, f, f.outbox[o]); }
      }
    }
  }

  /** An exact repeat of an accepted delivery succeeds at any time and changes nothing. */
  lemma ExactRepeatIsIdempotent(encode: Encoder, f: Files, d: Delivery, t: int)
    requires Stable(encode) && Coherent(encode, f)
    requires Complete(d) && Durable(encode, f, d)
    ensures AtomicPersist(encode, f, d.(receivedAt := t)) == (true, f)
  {
    var d' := d.(receivedAt := t);
    assert RawIdentity(d') == RawIdentity(d) && PathOf(d') == PathOf(d);
    assert Agrees(encode, f, d');
    assert f.outbox[d.outboxID := RawIdentity(d)] == f.outbox;
  }

  /** An accepted event that comes again under a new outbox ID is taken exactly when its payload was
      in stored form: otherwise the stored bytes never equal the delivered ones. */
  lemma NewOutboxIDNeedsStoredForm(encode: Encoder, f: Files, d: Delivery, o: string)
    requires Stable(encode) && Coherent(encode, f) && Acceptable(encode, f, d)
    requires o != "" && o != d.outboxID && o !in f.outbox
    ensures AtomicPersist(encode, AtomicPersist(encode, f, d).1, d.(outboxID := o)).0 <==> PayloadFixed(encode, d)
  {
    PersistKeepsInbox(encode, f, d);
    var f', e := AtomicPersist(encode, f, d).1, d.(outboxID := o);
    assert PathOf(e) == PathOf(d) && RawIdentity(e) == RawIdentity(d);
    assert e.outboxID !in f'.outbox && PathOf(e) in f'.events;
  }
}
