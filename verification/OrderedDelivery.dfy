/**
 One business's ledger stream end to end: a sender that repeats sequence n until it sees the
 acknowledgement of n and only then sends n+1, late duplicates of anything sent before, lost
 replies, receiver crashes and failures at any file call, and arbitrary traffic of everybody else.
 */
module OrderedDelivery {
  import opened Common
  import opened InboxModel
  import opened InboxSteps
  import opened LedgerValidation
  import opened Receivers

  /** The requests the sender has to deliver: sequence n is the n-th of them. */
  type Feed = seq<Request>

  datatype Exchange = Exchange(files: Files, acked: nat)

  datatype Event =
    | Deliver(n: nat, now: int, replyLost: bool)
    | Die(n: nat, now: int, calls: nat)
    | Fail(n: nat, now: int, calls: nat)
    | Other(incident: Incident)

  predicate InFeed(feed: Feed, n: int) {
    1 <= n <= |feed|
  }

  function Nth(feed: Feed, n: int): Request
    requires InFeed(feed, n)
  {
    feed[n - 1]
  }

  /** Request n carries sequence n of business b; nothing else is assumed of it. */
  ghost predicate FeedOf(cfg: Config, feed: Feed, b: string) {
    forall n :: InFeed(feed, n) ==>
      var body := cfg.decode(Nth(feed, n).raw);
      body.LedgerBody? && body.event.Some? && body.event.value.businessID == b && body.event.value.sequence == n
  }

  /** A request that is not a ledger event of business b. */
  predicate Foreign(cfg: Config, req: Request, b: string) {
    var body := cfg.decode(req.raw);
    body.LedgerBody? && body.event.Some? ==> body.event.value.businessID != b
  }

  predicate Enabled(cfg: Config, feed: Feed, b: string, x: Exchange, e: Event) {
    match e
    case Other(i) => Foreign(cfg, i.req, b)
    case _ => e.n <= x.acked + 1 && InFeed(feed, e.n)
  }

  ghost function Exchanged(cfg: Config, feed: Feed, b: string, x: Exchange, e: Event): Exchange {
    if !Enabled(cfg, feed, b, x, e) then x
    else match e
      case Other(i) => x.(files := Face(cfg, x.files, i).1)
      case Die(n, now, calls) => x.(files := Face(cfg, x.files, Interrupted(Nth(feed, n), now, calls)).1)
      case Fail(n, now, calls) => x.(files := Face(cfg, x.files, Failed(Nth(feed, n), now, calls)).1)
      case Deliver(n, now, replyLost) =>
        var (response, f') := Respond(cfg, x.files, Nth(feed, n), now);
        Exchange(f', if !replyLost && n == x.acked + 1 && response.ack == Some(n) then n else x.acked)
  }

  ghost function History(cfg: Config, feed: Feed, b: string, x: Exchange, events: seq<Event>): Exchange
    decreases |events|
  {
    if events == [] then x else History(cfg, feed, b, Exchanged(cfg, feed, b, x, events[0]), events[1..])
  }

  const START: Exchange := Exchange(NO_FILES, 0)

  predicate Ours(r: Delivery, b: string) {
    r.stream == "ledger" && r.businessID == b
  }

  function FeedPath(cfg: Config, feed: Feed, n: int): string
    requires InFeed(feed, n)
  {
    var body := cfg.decode(Nth(feed, n).raw);
    if body.LedgerBody? && body.event.Some? then EventPath("ledger", body.event.value.eventID) else ""
  }

  function OneTo(c: nat): (s: set<int>)
    ensures forall n :: n in s <==> 1 <= n <= c
  {
    if c == 0 then {} else OneTo(c - 1) + {c as int}
  }

  /** The sequences the inbox stores for the business. */
  ghost function StoredSequences(f: Files, b: string): set<int> {
    set p | p in f.events && Ours(f.events[p], b) :: f.events[p].sequence
  }

  ghost predicate StoredAs(cfg: Config, feed: Feed, b: string, f: Files, n: int)
    requires InFeed(feed, n)
  {
    var p := FeedPath(cfg, feed, n);
    p in f.events && Ours(f.events[p], b) && f.events[p].sequence == n
  }

  ghost predicate InOrder(cfg: Config, feed: Feed, b: string, x: Exchange) {
    && Coherent(cfg.encode, x.files) && x.acked <= |feed|
    && (forall p :: p in x.files.events && Ours(x.files.events[p], b) ==>
          var n := x.files.events[p].sequence;
          InFeed(feed, n) && n <= x.acked + 1 && p == FeedPath(cfg, feed, n))
    && (forall n :: 1 <= n <= x.acked ==> StoredAs(cfg, feed, b, x.files, n))
  }

  /** One request, however it ends, adds at most the alias and the event file of its own delivery. */
  lemma FaceAddsOwnFiles(cfg: Config, f: Files, i: Incident)
    requires Stable(cfg.encode) && Coherent(cfg.encode, f)
    ensures var dispatched, f' := Dispatched(cfg, i.req, i.now), Face(cfg, f, i).1;
            if dispatched.None? then f' == f
            else
              var d := dispatched.value;
              && (f'.outbox == f.outbox || f'.outbox == f.outbox[d.outboxID := RawIdentity(d)])
              && (|| f'.events == f.events
                  || (cfg.encode(d.payload).Some?
                      && f'.events == f.events[PathOf(d) := EventFile(cfg.encode, d)]))
  {
    var dispatched := Dispatched(cfg, i.req, i.now);
    if dispatched.Some? && !i.Handled? { CutShortCases(cfg.encode, f, dispatched.value, i.calls); }
  }

  lemma FilesStepInOrder(cfg: Config, feed: Feed, b: string, x: Exchange, i: Incident)
    requires Stable(cfg.encode) && FeedOf(cfg, feed, b) && InOrder(cfg, feed, b, x)
    requires Foreign(cfg, i.req, b) || exists n :: InFeed(feed, n) && n <= x.acked + 1 && i.req == Nth(feed, n)
    ensures InOrder(cfg, feed, b, x.(files := Face(cfg, x.files, i).1))
  {
    var f, f' := x.files, Face(cfg, x.files, i).1;
    FaceKeepsInbox(cfg, f, i);
    FaceAddsOwnFiles(cfg, f, i);
    hide Face, Coherent, Stable;
    assert "notification"[0] != "ledger"[0];
    forall n | 1 <= n <= x.acked ensures StoredAs(cfg, feed, b, f', n) {
      assert StoredAs(cfg, feed, b, f, n);
    }
  }

  lemma EarnedIsStored(cfg: Config, feed: Feed, b: string, x: Exchange, n: int, now: int)
    requires FeedOf(cfg, feed, b) && InFeed(feed, n)
    requires var (response, f') := Respond(cfg, x.files, Nth(feed, n), now);
             response.ack.Some? ==> Earned(cfg, f', Nth(feed, n), response.ack.value)
    ensures var (response, f') := Respond(cfg, x.files, Nth(feed, n), now);
            response.ack.Some? ==> StoredAs(cfg, feed, b, f', n)
  {
    hide Respond, ValidLedger;
    assert cfg.decode(Nth(feed, n).raw).LedgerBody?;
  }

  lemma ExchangeInOrder(cfg: Config, feed: Feed, b: string, x: Exchange, e: Event)
    requires Stable(cfg.encode) && FeedOf(cfg, feed, b) && InOrder(cfg, feed, b, x)
    ensures InOrder(cfg, feed, b, Exchanged(cfg, feed, b, x, e))
    ensures Exchanged(cfg, feed, b, x, e).acked >= x.acked
  {
    if Enabled(cfg, feed, b, x, e) {
      match e
      case Other(i) => FilesStepInOrder(cfg, feed, b, x, i);
      case Die(n, now, calls) => FilesStepInOrder(cfg, feed, b, x, Interrupted(Nth(feed, n), now, calls));
      case Fail(n, now, calls) => FilesStepInOrder(cfg, feed, b, x, Failed(Nth(feed, n), now, calls));
      case Deliver(n, now, replyLost) =>
        DeliveryInOrder(cfg, feed, b, x, n, now);
        hide InOrder, FeedOf, Stable, Respond;
    }
  }

  /** Delivering request n keeps the order, whether or not the sender learns of the acknowledgement. */
  lemma DeliveryInOrder(cfg: Config, feed: Feed, b: string, x: Exchange, n: int, now: int)
    requires Stable(cfg.encode) && FeedOf(cfg, feed, b) && InOrder(cfg, feed, b, x)
    requires InFeed(feed, n) && n <= x.acked + 1
    ensures var (response, f') := Respond(cfg, x.files, Nth(feed, n), now);
            && InOrder(cfg, feed, b, x.(files := f'))
            && (response.ack == Some(n) && n == x.acked + 1 ==> InOrder(cfg, feed, b, Exchange(f', n)))
  {
    hide Respond, Stable, StoredAs, Earned;
    var (response, f') := Respond(cfg, x.files, Nth(feed, n), now);
    FilesStepInOrder(cfg, feed, b, x, Handled(Nth(feed, n), now));
    AckIsEarnedAtOnce(cfg, x.files, Nth(feed, n), now);
    EarnedIsStored(cfg, feed, b, x, n, now);
    hide FeedOf, InOrder;
    if response.ack == Some(n) && n == x.acked + 1 { OneMoreInOrder(cfg, feed, b, x.(files := f')); }
  }

  /** The next sequence may count as acknowledged once it is stored. */
  lemma OneMoreInOrder(cfg: Config, feed: Feed, b: string, x: Exchange)
    requires InOrder(cfg, feed, b, x) && x.acked < |feed| && StoredAs(cfg, feed, b, x.files, x.acked + 1)
    ensures InOrder(cfg, feed, b, x.(acked := x.acked + 1))
  {
    hide Coherent, StoredAs;
  }

  lemma {:induction false} HistoryInOrder(cfg: Config, feed: Feed, b: string, x: Exchange, events: seq<Event>)
    requires Stable(cfg.encode) && FeedOf(cfg, feed, b) && InOrder(cfg, feed, b, x)
    ensures InOrder(cfg, feed, b, History(cfg, feed, b, x, events))
    decreases |events|
  {
    if events != [] {
      ExchangeInOrder(cfg, feed, b, x, events[0]);
      HistoryInOrder(cfg, feed, b, Exchanged(cfg, feed, b, x, events[0]), events[1..]);
    }
  }

  /** No sequence of the business is stored twice. */
  ghost predicate OneRecordEach(f: Files, b: string) {
    forall p, q ::
      (&& p in f.events && q in f.events && Ours(f.events[p], b) && Ours(f.events[q], b)
       && f.events[p].sequence == f.events[q].sequence) ==> p == q
  }

  /** What is stored of the business is 1..c or 1..c+1, each in one record; only 1..c at the end. */
  ghost predicate ExactlyOnce(feed: Feed, x: Exchange, b: string) {
    var stored := StoredSequences(x.files, b);
    && (stored == OneTo(x.acked) || (stored == OneTo(x.acked + 1) && x.acked < |feed|))
    && OneRecordEach(x.files, b)
  }

  lemma InOrderIsExactlyOnce(cfg: Config, feed: Feed, b: string, x: Exchange)
    requires InOrder(cfg, feed, b, x)
    ensures ExactlyOnce(feed, x, b)
  {
    var stored := StoredSequences(x.files, b);
    forall n: int | 1 <= n <= x.acked ensures n in stored {
      assert StoredAs(cfg, feed, b, x.files, n);
    }
    assert forall n :: n in stored ==> InFeed(feed, n) && n <= x.acked + 1;
    if x.acked + 1 in stored {
      assert stored == OneTo(x.acked + 1);
    } else {
      assert stored == OneTo(x.acked);
    }
  }

  /** In order and exactly once: after any history from a fresh inbox the stored sequences of the
      business are 1..c or 1..c+1, where c is the last acknowledged, each in exactly one record. */
  lemma DeliveredInOrderExactlyOnce(cfg: Config, feed: Feed, b: string, events: seq<Event>)
    requires Stable(cfg.encode) && FeedOf(cfg, feed, b)
    ensures ExactlyOnce(feed, History(cfg, feed, b, START, events), b)
  {
    StartIsInOrder(cfg, feed, b);
    hide InOrder, ExactlyOnce, FeedOf;
    HistoryInOrder(cfg, feed, b, START, events);
    InOrderIsExactlyOnce(cfg, feed, b, History(cfg, feed, b, START, events));
  }

  lemma StartIsInOrder(cfg: Config, feed: Feed, b: string)
    ensures InOrder(cfg, feed, b, START) && AgreesWithFeed(cfg, feed, START.files)
  {
  }

  // ---- The stream never gets stuck ----

  /** What the sender controls: valid requests in stored form, with their own event and outbox IDs. */
  ghost predicate GoodFeed(cfg: Config, feed: Feed, b: string) {
    && FeedOf(cfg, feed, b)
    && (forall n, t: int :: InFeed(feed, n) ==> Dispatched(cfg, Nth(feed, n), t).Some?)
    && (forall n :: InFeed(feed, n) ==> cfg.encode(Nth(feed, n).raw) == Some(Nth(feed, n).raw))
    && (forall m, n :: InFeed(feed, m) && InFeed(feed, n) && m != n ==>
          Nth(feed, m).outboxID != Nth(feed, n).outboxID && FeedPath(cfg, feed, m) != FeedPath(cfg, feed, n))
  }

  /** The identity request n carries. */
  function FeedIdentity(cfg: Config, feed: Feed, n: int): Identity
    requires InFeed(feed, n)
  {
    var body := cfg.decode(Nth(feed, n).raw);
    if body.LedgerBody? && body.event.Some?
    then Identity("ledger", body.event.value.eventID, body.event.value.businessID, body.event.value.sequence,
                  Nth(feed, n).raw)
    else Identity("", "", "", 0, "")
  }

  /** What the files hold under the names of request n is request n. */
  ghost predicate Agreeing(cfg: Config, feed: Feed, f: Files, n: int)
    requires InFeed(feed, n)
  {
    var o, p := Nth(feed, n).outboxID, FeedPath(cfg, feed, n);
    && (o in f.outbox ==> f.outbox[o] == FeedIdentity(cfg, feed, n))
    && (p in f.events ==> RawIdentity(f.events[p]) == FeedIdentity(cfg, feed, n))
  }

  ghost predicate AgreesWithFeed(cfg: Config, feed: Feed, f: Files) {
    forall n :: InFeed(feed, n) ==> Agreeing(cfg, feed, f, n)
  }

  /** Somebody else's request uses neither an outbox ID nor an event name of the feed. */
  ghost predicate Apart(cfg: Config, feed: Feed, i: Incident) {
    var dispatched := Dispatched(cfg, i.req, i.now);
    dispatched.Some? ==> forall n :: InFeed(feed, n) ==>
      dispatched.value.outboxID != Nth(feed, n).outboxID && PathOf(dispatched.value) != FeedPath(cfg, feed, n)
  }

  ghost predicate OthersApart(cfg: Config, feed: Feed, events: seq<Event>) {
    forall k :: 0 <= k < |events| && events[k].Other? ==> Apart(cfg, feed, events[k].incident)
  }

  lemma DispatchedFromFeed(cfg: Config, feed: Feed, b: string, n: int, t: int)
    requires GoodFeed(cfg, feed, b) && InFeed(feed, n)
    ensures Dispatched(cfg, Nth(feed, n), t).Some?
    ensures var d := Dispatched(cfg, Nth(feed, n), t).value;
            && d.outboxID == Nth(feed, n).outboxID && d.payload == Nth(feed, n).raw && d.sequence == n
            && d.stream == "ledger"
            && RawIdentity(d) == FeedIdentity(cfg, feed, n) && PathOf(d) == FeedPath(cfg, feed, n)
            && Complete(d) && PayloadFixed(cfg.encode, d)
  {
    var body := cfg.decode(Nth(feed, n).raw);
    assert body.LedgerBody? && body.event.Some?;
  }

  /** Requests of the feed and requests apart from it keep the files in agreement with it. */
  lemma FaceKeepsAgreement(cfg: Config, feed: Feed, b: string, f: Files, i: Incident)
    requires Stable(cfg.encode) && GoodFeed(cfg, feed, b) && Coherent(cfg.encode, f) && AgreesWithFeed(cfg, feed, f)
    requires Apart(cfg, feed, i) || exists n :: InFeed(feed, n) && i.req == Nth(feed, n)
    ensures AgreesWithFeed(cfg, feed, Face(cfg, f, i).1)
  {
    var f' := Face(cfg, f, i).1;
    FaceAddsOwnFiles(cfg, f, i);
    forall m | InFeed(feed, m) ensures Agreeing(cfg, feed, f', m) {
      assert Agreeing(cfg, feed, f, m);
      if !Apart(cfg, feed, i) {
        var n :| InFeed(feed, n) && i.req == Nth(feed, n);
        DispatchedFromFeed(cfg, feed, b, n, i.now);
        hide Dispatched, Face, FeedIdentity, FeedPath, Coherent, Stable, FeedOf, Apart;
      } else {
        hide Dispatched, Face, FeedIdentity, FeedPath, Coherent, Stable, GoodFeed;
      }
    }
  }

  lemma {:induction false} HistoryKeepsAgreement(cfg: Config, feed: Feed, b: string, x: Exchange, events: seq<Event>)
    requires Stable(cfg.encode) && GoodFeed(cfg, feed, b) && InOrder(cfg, feed, b, x)
    requires AgreesWithFeed(cfg, feed, x.files) && OthersApart(cfg, feed, events)
    ensures AgreesWithFeed(cfg, feed, History(cfg, feed, b, x, events).files)
    decreases |events|
  {
    if events != [] {
      var e := events[0];
      if Enabled(cfg, feed, b, x, e) {
        var i := match e
          case Other(i) => i
          case Die(n, now, calls) => Interrupted(Nth(feed, n), now, calls)
          case Fail(n, now, calls) => Failed(Nth(feed, n), now, calls)
          case Deliver(n, now, _) => Handled(Nth(feed, n), now);
        FaceKeepsAgreement(cfg, feed, b, x.files, i);
        assert Exchanged(cfg, feed, b, x, e).files == Face(cfg, x.files, i).1;
      }
      ExchangeInOrder(cfg, feed, b, x, e);
      hide Exchanged, AgreesWithFeed, InOrder, Apart;
      HistoryKeepsAgreement(cfg, feed, b, Exchanged(cfg, feed, b, x, e), events[1..]);
    }
  }

  /** Request n is acceptable to files that agree with the feed, and is answered with its sequence. */
  lemma FeedIsAcknowledged(cfg: Config, feed: Feed, b: string, f: Files, n: int, now: int)
    requires GoodFeed(cfg, feed, b) && AgreesWithFeed(cfg, feed, f) && InFeed(feed, n)
    ensures Respond(cfg, f, Nth(feed, n), now).0 == Response(204, Some(n))
  {
    DispatchedFromFeed(cfg, feed, b, n, now);
    assert Agreeing(cfg, feed, f, n);
    hide GoodFeed, AgreesWithFeed, FeedIdentity, FeedPath, Dispatched;
    assert Acceptable(cfg.encode, f, Dispatched(cfg, Nth(feed, n), now).value);
  }

  lemma NextIsAcknowledged(cfg: Config, feed: Feed, b: string, x: Exchange, now: int)
    requires GoodFeed(cfg, feed, b) && AgreesWithFeed(cfg, feed, x.files) && x.acked < |feed|
    ensures Exchanged(cfg, feed, b, x, Deliver(x.acked + 1, now, false)).acked == x.acked + 1
  {
    FeedIsAcknowledged(cfg, feed, b, x.files, x.acked + 1, now);
    hide Respond, AgreesWithFeed, GoodFeed;
  }

  /** Whatever crashes, failures, losses, duplicates and other traffic came before, the next sequence
      is acknowledged by the first delivery that is neither disturbed nor loses its reply. */
  lemma NextSequenceIsAcknowledged(cfg: Config, feed: Feed, b: string, events: seq<Event>, now: int)
    requires Stable(cfg.encode) && GoodFeed(cfg, feed, b) && OthersApart(cfg, feed, events)
    requires History(cfg, feed, b, START, events).acked < |feed|
    ensures var x := History(cfg, feed, b, START, events);
            Exchanged(cfg, feed, b, x, Deliver(x.acked + 1, now, false)).acked == x.acked + 1
  {
    hide GoodFeed, AgreesWithFeed, InOrder, OthersApart;
    StartIsInOrder(cfg, feed, b);
    HistoryKeepsAgreement(cfg, feed, b, START, events);
    NextIsAcknowledged(cfg, feed, b, History(cfg, feed, b, START, events), now);
  }

  /** The rest of the feed, delivered without disturbance. */
  function CatchUp(feed: Feed, from: nat, now: int): seq<Event>
    decreases |feed| - from
  {
    if from >= |feed| then [] else [Deliver(from + 1, now, false)] + CatchUp(feed, from + 1, now)
  }

  lemma {:induction false} CatchUpAcknowledgesAll(cfg: Config, feed: Feed, b: string, x: Exchange, now: int)
    requires Stable(cfg.encode) && GoodFeed(cfg, feed, b) && InOrder(cfg, feed, b, x)
    requires AgreesWithFeed(cfg, feed, x.files)
    ensures var y := History(cfg, feed, b, x, CatchUp(feed, x.acked, now));
            InOrder(cfg, feed, b, y) && y.acked == |feed|
    decreases |feed| - x.acked
  {
    if x.acked < |feed| {
      var e := Deliver(x.acked + 1, now, false);
      var x' := Exchanged(cfg, feed, b, x, e);
      NextIsAcknowledged(cfg, feed, b, x, now);
      ExchangeInOrder(cfg, feed, b, x, e);
      FaceKeepsAgreement(cfg, feed, b, x.files, Handled(Nth(feed, e.n), now));
      assert CatchUp(feed, x.acked, now)[1..] == CatchUp(feed, x'.acked, now);
      hide Respond, AgreesWithFeed, GoodFeed, InOrder;
      CatchUpAcknowledgesAll(cfg, feed, b, x', now);
    }
  }

  /** Complete: after any history, delivering the rest undisturbed ends with the whole feed
      acknowledged, and stored exactly once each. */
  lemma WholeFeedIsDelivered(cfg: Config, feed: Feed, b: string, events: seq<Event>, now: int)
    requires Stable(cfg.encode) && GoodFeed(cfg, feed, b) && OthersApart(cfg, feed, events)
    ensures var x := History(cfg, feed, b, START, events);
            var y := History(cfg, feed, b, x, CatchUp(feed, x.acked, now));
            && y.acked == |feed| && StoredSequences(y.files, b) == OneTo(|feed|) && OneRecordEach(y.files, b)
  {
    StartIsInOrder(cfg, feed, b);
    assert FeedOf(cfg, feed, b);
    hide GoodFeed, AgreesWithFeed, InOrder, OthersApart, FeedOf;
    HistoryInOrder(cfg, feed, b, START, events);
    HistoryKeepsAgreement(cfg, feed, b, START, events);
    var x := History(cfg, feed, b, START, events);
    CatchUpAcknowledgesAll(cfg, feed, b, x, now);
    InOrderIsExactlyOnce(cfg, feed, b, History(cfg, feed, b, x, CatchUp(feed, x.acked, now)));
  }

  // ---- Such feeds exist ----

  /** A receiver whose bodies are tally marks: n of them are event n of business "b". */
  function TallyDecoder(raw: string): Body {
    var entry := LedgerValidation.Entry(raw, "usage_consumed", "c", "s", "t", "v", "p", Some("{}"));
    if |raw| <= MAX_INT64 then LedgerBody(Some(Ledger(raw, "b", |raw|, entry, []))) else LedgerBody(None)
  }

  function Tally(n: nat): (s: string)
    ensures |s| == n
  {
    seq(n, _ => '1')
  }

  function TallyFeed(last: nat): (feed: Feed)
    ensures |feed| == last
  {
    seq(last, i requires 0 <= i < last => Request(true, Tally(i + 1), Tally(i + 1)))
  }

  /** Every length an int64 sequence allows has a configuration with int64 sequences and a good feed. */
  lemma GoodFeedsExist(last: nat)
    requires last <= MAX_INT64
    ensures var cfg := Config(p => Some(p), TallyDecoder, last, true);
            && Stable(cfg.encode) && GoodFeed(cfg, TallyFeed(last), "b") && |TallyFeed(last)| == last
            && (forall raw :: var body := cfg.decode(raw);
                  body.LedgerBody? && body.event.Some? ==> IsInt64(body.event.value.sequence))
  {
    var cfg, feed := Config(p => Some(p), TallyDecoder, last, true), TallyFeed(last);
    forall n | InFeed(feed, n) ensures Nth(feed, n) == Request(true, Tally(n), Tally(n)) {}
    forall n, t: int | InFeed(feed, n) ensures Dispatched(cfg, Nth(feed, n), t).Some? {
      assert cfg.decode(Nth(feed, n).raw) == TallyDecoder(Tally(n)) && TallyDecoder(Tally(n)).LedgerBody?;
      var e := TallyDecoder(Tally(n)).event.value;
      assert ValidHeader(e) && Balanced(e.postings);
    }
    forall m, n | InFeed(feed, m) && InFeed(feed, n) && m != n
      ensures Nth(feed, m).outboxID != Nth(feed, n).outboxID && FeedPath(cfg, feed, m) != FeedPath(cfg, feed, n)
    {
      assert |FeedPath(cfg, feed, m)| == |"ledger:"| + m && |FeedPath(cfg, feed, n)| == |"ledger:"| + n;
    }
  }
}
