/** The Go inbox: two directories of write-once files, changed one publication at a time. */
module FileInboxes {
  import opened Common
  import opened InboxModel

  class FileInbox {
    const encode: Encoder
    var events: map<string, Delivery>
    var outbox: map<string, Identity>

    ghost function State(): Files
      reads this
    {
      Files(events, outbox)
    }

    ghost predicate Valid()
      reads this
    {
      Stable(encode) && Coherent(encode, State())
    }

    constructor (encode: Encoder)
      requires Stable(encode)
      ensures Valid() && State() == NO_FILES && this.encode == encode
    {
      this.encode := encode;
      events, outbox := map[], map[];
    }

    /** Publishes an event file unless the name is taken; a taken name with equal contents is fine. */
    method WriteEventOnce(path: string, contents: Delivery) returns (ok: bool)
      modifies this`events
      ensures ok <==> path in old(events) ==> old(events)[path] == contents
      ensures events == if path in old(events) then old(events) else old(events)[path := contents]
    {
      if path in events {
        return events[path] == contents;
      }
      events := events[path := contents];
      return true;
    }

    method WriteAliasOnce(path: string, contents: Identity) returns (ok: bool)
      modifies this`outbox
      ensures ok <==> path in old(outbox) ==> old(outbox)[path] == contents
      ensures outbox == if path in old(outbox) then old(outbox) else old(outbox)[path := contents]
    {
      if path in outbox {
        return outbox[path] == contents;
      }
      outbox := outbox[path := contents];
      return true;
    }

    /** One delivery under the mutex: reads alias, reads event, links event, links alias. It is the
        atomic operation on the two maps, and each rejection names the clause that failed. */
    method Persist(d: Delivery) returns (result: Outcome)
      requires Valid()
      modifies this
      ensures Valid()
      ensures (result == Accepted, State()) == AtomicPersist(encode, old(State()), d)
      ensures result == Rejected(IncompleteIdentity) <==> !Complete(d)
      ensures result == Rejected(NotEncodable) <==> Complete(d) && encode(d.payload).None?
      ensures result == Rejected(OutboxReused) <==>
                && Complete(d) && encode(d.payload).Some?
                && d.outboxID in old(outbox) && old(outbox)[d.outboxID] != RawIdentity(d)
      ensures result == Rejected(EventReused) <==>
                && Complete(d) && encode(d.payload).Some? && d.outboxID !in old(outbox)
                && PathOf(d) in old(events) && RawIdentity(old(events)[PathOf(d)]) != RawIdentity(d)
      ensures result != Rejected(StorageFault)
    {
      PersistKeepsInbox(encode, State(), d);
      if d.outboxID == "" || d.stream == "" || d.eventID == "" || d.businessID == "" {
        return Rejected(IncompleteIdentity);
      }
      if encode(d.payload).None? {
        return Rejected(NotEncodable);
      }
      var encoded := EventFile(encode, d);
      var alias := RawIdentity(d);

      if d.outboxID in outbox {
        if outbox[d.outboxID] == alias {
          assert AliasResolves(encode, State(), alias);
          assert outbox[d.outboxID := alias] == outbox;
          return Accepted;
        }
        return Rejected(OutboxReused);
      }

      var path := PathOf(d);
      if path in events {
        var original := events[path];
        if original.stream != d.stream || original.eventID != d.eventID
           || original.businessID != d.businessID || original.sequence != d.sequence
           || original.payload != d.payload {
          return Rejected(EventReused);
        }
        assert PayloadFixed(encode, original);
        var linked := WriteAliasOnce(d.outboxID, alias);
        return if linked then Accepted else Rejected(StorageFault);
      }

      var stored := WriteEventOnce(path, encoded);
      if !stored {
        return Rejected(StorageFault);
      }
      var bound := WriteAliasOnce(d.outboxID, alias);
      return if bound then Accepted else Rejected(StorageFault);
    }
  }
}
