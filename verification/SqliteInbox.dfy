/** The Python inbox: one table with two unique keys, changed inside a transaction. */
module SqliteInboxes {
  import opened Common

  datatype Facts = Facts(
    stream: string, eventID: string, businessID: string, sequence: Option<int>, payload: string)

  datatype Row = Row(outboxID: string, facts: Facts)

  /** What the driver can bind: SQLite integers have 64 bits. */
  predicate Fits(r: Row) {
    r.facts.sequence.Some? ==> IsInt64(r.facts.sequence.value)
  }

  function KeyOf(r: Row): (string, string) {
    (r.facts.stream, r.facts.eventID)
  }

  predicate SharesKey(a: Row, b: Row) {
    a.outboxID == b.outboxID || KeyOf(a) == KeyOf(b)
  }

  /** Both unique constraints of the table. */
  ghost predicate Unique(rows: seq<Row>) {
    forall i, j :: 0 <= i < j < |rows| ==> !SharesKey(rows[i], rows[j])
  }

  /** No stored row shares a key with `r` and tells something else. */
  ghost predicate NoContradiction(rows: seq<Row>, r: Row) {
    forall i :: 0 <= i < |rows| && SharesKey(rows[i], r) ==> rows[i].facts == r.facts
  }

  ghost predicate Holds(rows: seq<Row>, facts: Facts) {
    exists i :: 0 <= i < |rows| && rows[i].facts == facts
  }

  ghost predicate KeyTaken(rows: seq<Row>, r: Row) {
    exists i :: 0 <= i < |rows| && SharesKey(rows[i], r)
  }

  /** The atomic operation on the table that persisting one delivery refines. */
  ghost function TablePersist(rows: seq<Row>, r: Row): (bool, seq<Row>) {
    if !Fits(r) || !NoContradiction(rows, r) then (false, rows)
    else if KeyTaken(rows, r) then (true, rows)
    else (true, rows + [r])
  }

  /** The row bound to an outbox ID, as SELECT ... WHERE outbox_id = ? finds it. */
  function SelectByOutbox(rows: seq<Row>, outboxID: string): (found: Option<Facts>)
    ensures found.None? <==> forall i :: 0 <= i < |rows| ==> rows[i].outboxID != outboxID
    ensures found.Some? ==> exists i :: 0 <= i < |rows| && rows[i] == Row(outboxID, found.value)
  {
    if rows == [] then None
    else if rows[0].outboxID == outboxID then Some(rows[0].facts)
    else
      var rest := SelectByOutbox(rows[1..], outboxID);
      assert forall i :: 0 < i < |rows| ==> rows[i] == rows[1..][i - 1];
      rest
  }

  function SelectByEvent(rows: seq<Row>, stream: string, eventID: string): (found: Option<Facts>)
    ensures found.None? <==> forall i :: 0 <= i < |rows| ==> KeyOf(rows[i]) != (stream, eventID)
    ensures found.Some? ==> exists i :: 0 <= i < |rows| && KeyOf(rows[i]) == (stream, eventID) && rows[i].facts == found.value
  {
    if rows == [] then None
    else if KeyOf(rows[0]) == (stream, eventID) then Some(rows[0].facts)
    else
      var rest := SelectByEvent(rows[1..], stream, eventID);
      assert forall i :: 0 < i < |rows| ==> rows[i] == rows[1..][i - 1];
      rest
  }

  /** What persisting does, row by row: it succeeds exactly when the sequence has 64 bits and every
      row with this outbox ID, and every row with this stream and event ID, tells the same facts;
      it adds a row exactly when there is no such row. */
  lemma SucceedsExactly(rows: seq<Row>, r: Row)
    ensures TablePersist(rows, r).0 <==>
              && (r.facts.sequence.Some? ==> MIN_INT64 <= r.facts.sequence.value <= MAX_INT64)
              && (forall i :: 0 <= i < |rows| && rows[i].outboxID == r.outboxID ==> rows[i].facts == r.facts)
              && (forall i :: 0 <= i < |rows| && rows[i].facts.stream == r.facts.stream ==>
                    rows[i].facts.eventID == r.facts.eventID ==> rows[i].facts == r.facts)
    ensures var (ok, rows') := TablePersist(rows, r);
            rows' == if ok && (forall i :: 0 <= i < |rows| ==>
                       rows[i].outboxID != r.outboxID
                       && (rows[i].facts.stream != r.facts.stream || rows[i].facts.eventID != r.facts.eventID))
                     then rows + [r] else rows
  {
    if NoContradiction(rows, r) {
      assert forall i :: 0 <= i < |rows| && SharesKey(rows[i], r) ==> rows[i].facts == r.facts;
    } else {
      var i :| 0 <= i < |rows| && SharesKey(rows[i], r) && rows[i].facts != r.facts;
    }
  }

  /** In every reachable table the keys stay unique, rows only grow, success means a row with the
      full facts is there, and a raise leaves the table as it was. */
  lemma TablePersistKeepsTable(rows: seq<Row>, r: Row)
    requires Unique(rows)
    ensures var (ok, rows') := TablePersist(rows, r);
            && Unique(rows') && rows <= rows'
            && (ok ==> Holds(rows', r.facts))
            && (!ok ==> rows' == rows)
  {
    var (ok, rows') := TablePersist(rows, r);
    if ok && KeyTaken(rows, r) {
      var i :| 0 <= i < |rows| && SharesKey(rows[i], r);
      assert rows[i].facts == r.facts;
    } else if ok {
      assert rows'[|rows|].facts == r.facts;
    }
  }

  /** The table after a history of calls, whether each returned or raised. */
  ghost function PersistAll(rows: seq<Row>, deliveries: seq<Row>): seq<Row>
    decreases |deliveries|
  {
    if deliveries == [] then rows
    else PersistAll(TablePersist(rows, deliveries[0]).1, deliveries[1..])
  }

  /** Over any history of calls, from the empty table, both keys determine at most one row. */
  lemma {:induction false} ReachableTablesAreUnique(rows: seq<Row>, deliveries: seq<Row>)
    requires Unique(rows)
    ensures Unique(PersistAll(rows, deliveries)) && rows <= PersistAll(rows, deliveries)
    decreases |deliveries|
  {
    if deliveries != [] {
      TablePersistKeepsTable(rows, deliveries[0]);
      ReachableTablesAreUnique(TablePersist(rows, deliveries[0]).1, deliveries[1..]);
    }
  }

  /** What the two SELECTs tell about a refused key: the row that shares it contradicts `r` or not. */
  lemma ExplanationIsExact(rows: seq<Row>, r: Row)
    requires Unique(rows) && KeyTaken(rows, r)
    ensures var (outbox, event) :=
              (SelectByOutbox(rows, r.outboxID), SelectByEvent(rows, r.facts.stream, r.facts.eventID));
            NoContradiction(rows, r) <==> (if outbox.Some? then outbox else event) == Some(r.facts)
  {
    var outbox, event := SelectByOutbox(rows, r.outboxID), SelectByEvent(rows, r.facts.stream, r.facts.eventID);
    if outbox.Some? {
      var i :| 0 <= i < |rows| && rows[i] == Row(r.outboxID, outbox.value);
      assert SharesKey(rows[i], r);
      if outbox == Some(r.facts) {
        forall j | 0 <= j < |rows| && SharesKey(rows[j], r) ensures j == i {
          assert SharesKey(rows[i], rows[j]) && SharesKey(rows[j], rows[i]);
        }
      }
    } else {
      var k :| 0 <= k < |rows| && SharesKey(rows[k], r);
      assert event.Some?;
      var i :| 0 <= i < |rows| && KeyOf(rows[i]) == KeyOf(r) && rows[i].facts == event.value;
      assert SharesKey(rows[i], r);
      forall j | 0 <= j < |rows| && SharesKey(rows[j], r) ensures j == i {
        assert SharesKey(rows[i], rows[j]) && SharesKey(rows[j], rows[i]);
      }
    }
  }

  datatype Insertion = Inserted | KeyRefused | NotBound

  class SqliteInbox {
    var rows: seq<Row>

    ghost predicate Valid()
      reads this
    {
      Unique(rows)
    }

    constructor ()
      ensures Valid() && rows == []
    {
      rows := [];
    }

    /** INSERT under both unique constraints: an unbindable sequence is an OverflowError, a taken key
        an IntegrityError. */
    method Insert(r: Row) returns (result: Insertion)
      requires Valid()
      modifies this
      ensures Valid()
      ensures result == NotBound <==> !Fits(r)
      ensures result == Inserted <==> Fits(r) && !KeyTaken(old(rows), r)
      ensures rows == if result == Inserted then old(rows) + [r] else old(rows)
    {
      if r.facts.sequence.Some? && !IsInt64(r.facts.sequence.value) {
        return NotBound;
      }
      if SelectByOutbox(rows, r.outboxID).Some? || SelectByEvent(rows, r.facts.stream, r.facts.eventID).Some? {
        return KeyRefused;
      }
      rows := rows + [r];
      return Inserted;
    }

    /** Insert first, then explain a refused key: the outbox row decides, else the event row. */
    method Persist(r: Row) returns (ok: bool)
      requires Valid()
      modifies this
      ensures Valid()
      ensures (ok, rows) == TablePersist(old(rows), r)
    {
      var result := Insert(r);
      if result == NotBound {
        return false;
      }
      if result == Inserted {
        return true;
      }
      ExplanationIsExact(rows, r);
      hide NoContradiction, KeyTaken, Unique;
      var existingOutbox := SelectByOutbox(rows, r.outboxID);
      if existingOutbox != None {
        return existingOutbox == Some(r.facts);
      }
      var existingEvent := SelectByEvent(rows, r.facts.stream, r.facts.eventID);
      ok := existingEvent == Some(r.facts);
    }
  }
}
