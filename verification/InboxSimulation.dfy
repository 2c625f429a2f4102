/** The two inboxes side by side: every crash-free run the Go inbox accepts, the Python inbox
    accepts with the same events; the exact point where they part. */
module InboxSimulation {
  import opened Common
  import opened InboxModel
  import opened SqliteInboxes

  /** The Python facts for the identity the Go closures build: no sequence is None, not zero. */
  function FactsOf(a: Identity): Facts {
    Facts(a.stream, a.eventID, a.businessID, if a.sequence == 0 then None else Some(a.sequence), a.payload)
  }

  function RowOf(d: Delivery): Row {
    Row(d.outboxID, FactsOf(RawIdentity(d)))
  }

  /** What each inbox knows about one event. */
  function GoLookup(f: Files, stream: string, eventID: string): Option<Facts> {
    var p := EventPath(stream, eventID);
    if p in f.events && f.events[p].stream == stream && f.events[p].eventID == eventID
    then Some(FactsOf(RawIdentity(f.events[p]))) else None
  }

  ghost predicate SameEvents(f: Files, rows: seq<Row>) {
    forall stream, eventID :: GoLookup(f, stream, eventID) == SelectByEvent(rows, stream, eventID)
  }

  /** Every Python row is a Go alias; Go may know more outbox IDs, never fewer. */
  ghost predicate BindingsIncluded(f: Files, rows: seq<Row>) {
    forall i :: 0 <= i < |rows| ==>
      rows[i].outboxID in f.outbox && FactsOf(f.outbox[rows[i].outboxID]) == rows[i].facts
  }

  /** All payloads seen so far were already in stored form. */
  ghost predicate PayloadsFixed(encode: Encoder, f: Files) {
    forall o :: o in f.outbox ==> encode(f.outbox[o].payload) == Some(f.outbox[o].payload)
  }

  ghost predicate Related(encode: Encoder, f: Files, rows: seq<Row>) {
    && Coherent(encode, f) && PayloadsFixed(encode, f)
    && Unique(rows) && SameEvents(f, rows) && BindingsIncluded(f, rows)
  }

  /** The event row of a key, found in a table with unique keys. */
  lemma UniqueEventRow(rows: seq<Row>, i: int)
    requires Unique(rows) && 0 <= i < |rows|
    ensures SelectByEvent(rows, rows[i].facts.stream, rows[i].facts.eventID) == Some(rows[i].facts)
  {
    var found := SelectByEvent(rows, rows[i].facts.stream, rows[i].facts.eventID);
    assert found.Some?;
    var j :| 0 <= j < |rows| && KeyOf(rows[j]) == KeyOf(rows[i]) && rows[j].facts == found.value;
    if j < i { assert SharesKey(rows[j], rows[i]); } else if i < j { assert SharesKey(rows[i], rows[j]); }
  }

  lemma SelectAfterAppend(rows: seq<Row>, r: Row, stream: string, eventID: string)
    requires Unique(rows) && Unique(rows + [r])
    ensures SelectByEvent(rows + [r], stream, eventID)
         == if KeyOf(r) == (stream, eventID) then Some(r.facts) else SelectByEvent(rows, stream, eventID)
  {
    var all := rows + [r];
    if KeyOf(r) == (stream, eventID) {
      assert all[|rows|] == r;
      UniqueEventRow(all, |rows|);
    } else if SelectByEvent(rows, stream, eventID).Some? {
      var i :| 0 <= i < |rows| && KeyOf(rows[i]) == (stream, eventID)
               && rows[i].facts == SelectByEvent(rows, stream, eventID).value;
      assert all[i] == rows[i];
      UniqueEventRow(all, i);
    } else {
      assert forall i :: 0 <= i < |all| ==> KeyOf(all[i]) != (stream, eventID);
    }
  }

  /** Another event is filed under the same path: `a:b` + `c` and `a` + `b:c` share a file name. */
  predicate PathShared(f: Files, d: Delivery) {
    PathOf(d) in f.events
    && (f.events[PathOf(d)].stream != d.stream || f.events[PathOf(d)].eventID != d.eventID)
  }

  /** Exactly where the inboxes part on a complete stored-form delivery: Go turns away in addition
      what its extra outbox bindings, or a shared file name, contradict. */
  lemma PartingPoint(encode: Encoder, f: Files, rows: seq<Row>, d: Delivery)
    requires Related(encode, f, rows)
    requires Complete(d) && PayloadFixed(encode, d) && IsInt64(d.sequence)
    ensures Acceptable(encode, f, d)
       <==> && NoContradiction(rows, RowOf(d))
            && (d.outboxID in f.outbox ==> f.outbox[d.outboxID] == RawIdentity(d))
            && !PathShared(f, d)
  {
    var r := RowOf(d);
    assert GoLookup(f, d.stream, d.eventID) == SelectByEvent(rows, d.stream, d.eventID);
    if Acceptable(encode, f, d) {
      forall i | 0 <= i < |rows| && SharesKey(rows[i], r) ensures rows[i].facts == r.facts {
        if rows[i].outboxID != r.outboxID { UniqueEventRow(rows, i); }
      }
    } else if NoContradiction(rows, r) && !PathShared(f, d) && PathOf(d) in f.events {
      var i :| 0 <= i < |rows| && KeyOf(rows[i]) == KeyOf(r);
      assert SharesKey(rows[i], r);
      UniqueEventRow(rows, i);
    }
  }

  /** Streams without a colon, as both closures use, never share a file name. */
  lemma {:induction false} ColonFreePathsAreInjective(s: string, e: string, s': string, e': string)
    requires ':' !in s && ':' !in s'
    requires EventPath(s, e) == EventPath(s', e')
    ensures s == s' && e == e'
    decreases |s|
  {
    var p, p' := EventPath(s, e), EventPath(s', e');
    if s == [] || s' == [] {
      assert p[0] == p'[0];
      assert s == [] && s' == [];
      assert e == p[1..] && e' == p'[1..];
    } else {
      assert p[0] == s[0] && p'[0] == s'[0];
      assert p[1..] == EventPath(s[1..], e) && p'[1..] == EventPath(s'[1..], e');
      ColonFreePathsAreInjective(s[1..], e, s'[1..], e');
    }
  }

  lemma KnownEventStaysKnown(f: Files, rows: seq<Row>, d: Delivery)
    requires SameEvents(f, rows) && Unique(rows) && NoContradiction(rows, RowOf(d)) && KeyTaken(rows, RowOf(d))
    ensures PathOf(d) in f.events
  {
    var i :| 0 <= i < |rows| && SharesKey(rows[i], RowOf(d));
    assert rows[i].facts == RowOf(d).facts;
    UniqueEventRow(rows, i);
    assert GoLookup(f, d.stream, d.eventID).Some?;
  }

  lemma NewEventInBoth(f: Files, rows: seq<Row>, d: Delivery, f': Files, rows': seq<Row>)
    requires SameEvents(f, rows) && Unique(rows) && Unique(rows')
    requires PathOf(d) !in f.events && f'.events == f.events[PathOf(d) := d] && rows' == rows + [RowOf(d)]
    ensures SameEvents(f', rows')
  {
    forall s, e ensures GoLookup(f', s, e) == SelectByEvent(rows', s, e) {
      assert GoLookup(f, s, e) == SelectByEvent(rows, s, e);
      SelectAfterAppend(rows, RowOf(d), s, e);
    }
  }

  lemma SimulationStep(encode: Encoder, f: Files, rows: seq<Row>, d: Delivery)
    requires Stable(encode) && Related(encode, f, rows)
    requires PayloadFixed(encode, d) && IsInt64(d.sequence) && AtomicPersist(encode, f, d).0
    ensures TablePersist(rows, RowOf(d)).0
    ensures Related(encode, AtomicPersist(encode, f, d).1, TablePersist(rows, RowOf(d)).1)
  {
    var r, f' := RowOf(d), Publish(encode, f, d);
    var rows' := TablePersist(rows, r).1;
    PartingPoint(encode, f, rows, d);
    PersistKeepsInbox(encode, f, d);
    TablePersistKeepsTable(rows, r);
    if KeyTaken(rows, r) {
      KnownEventStaysKnown(f, rows, d);
      assert f'.events == f.events;
      assert SameEvents(f', rows');
    } else {
      assert GoLookup(f, d.stream, d.eventID) == SelectByEvent(rows, d.stream, d.eventID);
      assert PathOf(d) !in f.events;
      NewEventInBoth(f, rows, d, f', rows');
    }
  }

  ghost function GoRun(encode: Encoder, f: Files, ds: seq<Delivery>): (bool, Files)
    decreases |ds|
  {
    if ds == [] then (true, f)
    else
      var (ok, f1) := AtomicPersist(encode, f, ds[0]);
      var (rest, f2) := GoRun(encode, f1, ds[1..]);
      (ok && rest, f2)
  }

  ghost function PythonRun(rows: seq<Row>, ds: seq<Delivery>): (bool, seq<Row>)
    decreases |ds|
  {
    if ds == [] then (true, rows)
    else
      var (ok, rows1) := TablePersist(rows, RowOf(ds[0]));
      var (rest, rows2) := PythonRun(rows1, ds[1..]);
      (ok && rest, rows2)
  }

  /** Forward simulation over whole runs: same verdicts, same events at the end. */
  lemma {:induction false} PythonFollowsGo(encode: Encoder, f: Files, rows: seq<Row>, ds: seq<Delivery>)
    requires Stable(encode) && Related(encode, f, rows)
    requires forall i :: 0 <= i < |ds| ==> PayloadFixed(encode, ds[i]) && IsInt64(ds[i].sequence)
    requires GoRun(encode, f, ds).0
    ensures PythonRun(rows, ds).0
    ensures Related(encode, GoRun(encode, f, ds).1, PythonRun(rows, ds).1)
    decreases |ds|
  {
    if ds != [] {
      SimulationStep(encode, f, rows, ds[0]);
      PythonFollowsGo(encode, AtomicPersist(encode, f, ds[0]).1, TablePersist(rows, RowOf(ds[0])).1, ds[1..]);
    }
  }

  /** From empty inboxes, as a deployment starts. */
  lemma AcceptedRunsAgree(encode: Encoder, ds: seq<Delivery>)
    requires Stable(encode)
    requires forall i :: 0 <= i < |ds| ==> PayloadFixed(encode, ds[i]) && IsInt64(ds[i].sequence)
    requires GoRun(encode, NO_FILES, ds).0
    ensures PythonRun([], ds).0
    ensures SameEvents(GoRun(encode, NO_FILES, ds).1, PythonRun([], ds).1)
    ensures SameRecords(GoRun(encode, NO_FILES, ds).1, PythonRun([], ds).1)
  {
    PythonFollowsGo(encode, NO_FILES, [], ds);
    hide GoRun, PythonRun;
    RelatedHoldSame(encode, GoRun(encode, NO_FILES, ds).1, PythonRun([], ds).1);
  }

  /** An event file and a row tell the same, field by field; no sequence is zero in Go, None in Python. */
  predicate SameFacts(e: Delivery, r: Row) {
    && e.stream == r.facts.stream && e.eventID == r.facts.eventID && e.businessID == r.facts.businessID
    && r.facts.sequence == (if e.sequence == 0 then None else Some(e.sequence))
    && e.payload == r.facts.payload
  }

  ghost predicate InRows(e: Delivery, rows: seq<Row>) {
    exists i :: 0 <= i < |rows| && SameFacts(e, rows[i])
  }

  ghost predicate OnFile(r: Row, f: Files) {
    exists p :: p in f.events && SameFacts(f.events[p], r)
  }

  /** Every event file has its row, and every row its event file. */
  ghost predicate SameRecords(f: Files, rows: seq<Row>) {
    && (forall p :: p in f.events ==> InRows(f.events[p], rows))
    && (forall i :: 0 <= i < |rows| ==> OnFile(rows[i], f))
  }

  lemma RelatedHoldSame(encode: Encoder, f: Files, rows: seq<Row>)
    requires Related(encode, f, rows)
    ensures SameRecords(f, rows)
  {
    forall p | p in f.events ensures InRows(f.events[p], rows) {
      var e := f.events[p];
      assert p == PathOf(e);
      assert GoLookup(f, e.stream, e.eventID) == Some(FactsOf(RawIdentity(e)));
      assert SelectByEvent(rows, e.stream, e.eventID).Some?;
      var i :| 0 <= i < |rows| && rows[i].facts == FactsOf(RawIdentity(e));
      assert SameFacts(e, rows[i]);
    }
    forall i | 0 <= i < |rows| ensures OnFile(rows[i], f) {
      UniqueEventRow(rows, i);
      var p := EventPath(rows[i].facts.stream, rows[i].facts.eventID);
      assert GoLookup(f, rows[i].facts.stream, rows[i].facts.eventID) == Some(rows[i].facts);
      assert p in f.events && SameFacts(f.events[p], rows[i]);
    }
  }

  /** The converse fails: after o2 repeated event e1, Python lets o2 carry e2, Go does not. */
  lemma ConverseFails(encode: Encoder, payload: string)
    requires Stable(encode) && encode(payload) == Some(payload)
    ensures var d := Delivery("o1", "ledger", "e1", "b", 1, payload, 0);
            var ds := [d, d.(outboxID := "o2"), d.(outboxID := "o2", eventID := "e2", sequence := 2)];
            PythonRun([], ds).0 && !GoRun(encode, NO_FILES, ds).0
  {
    var d := Delivery("o1", "ledger", "e1", "b", 1, payload, 0);
    var d2, d3 := d.(outboxID := "o2"), d.(outboxID := "o2", eventID := "e2", sequence := 2);
    var ds := [d, d2, d3];
    assert ds[1..] == [d2, d3] && ds[1..][1..] == [d3] && ds[1..][1..][1..] == [];

    var rows := [RowOf(d)];
    assert [] + [RowOf(d)] == rows;
    assert TablePersist([], RowOf(d)) == (true, rows);
    assert SharesKey(rows[0], RowOf(d2));
    assert TablePersist(rows, RowOf(d2)) == (true, rows);
    assert !KeyTaken(rows, RowOf(d3)) && NoContradiction(rows, RowOf(d3));
    assert PythonRun(rows + [RowOf(d3)], []).0;
    assert PythonRun(rows, [d3]).0;
    assert PythonRun(rows, [d2, d3]).0;

    var f1 := AtomicPersist(encode, NO_FILES, d).1;
    assert Acceptable(encode, NO_FILES, d);
    assert Acceptable(encode, f1, d2);
    var f2 := AtomicPersist(encode, f1, d2).1;
    assert f2.outbox["o2"] == RawIdentity(d2) != RawIdentity(d3);
    assert !Acceptable(encode, f2, d3);
    assert !GoRun(encode, f2, [d3]).0;
    assert !GoRun(encode, f1, [d2, d3]).0;
  }
}
