/**
 The file inbox one system call at a time: any number of workers, no mutex, any interleaving,
 faults of a single call and crashes of the whole process. Only two facts about the disk are
 used: os.Link creates or refuses, and published files survive a crash.
 */
module InboxSteps {
  import opened Common
  import opened InboxModel

  /** Where a worker stands inside persist. */
  datatype Phase =
    | Idle
    | ReadingAlias(d: Delivery)
    | ReadingEvent(d: Delivery)
    | LinkingEvent(d: Delivery)
    | ComparingEvent(d: Delivery)  // the link was refused: re-read the event file
    | LinkingAlias(d: Delivery)
    | ComparingAlias(d: Delivery)  // the link was refused: re-read the alias file
    | Returned(d: Delivery, outcome: Outcome)

  datatype World = World(files: Files, workers: seq<Phase>)

  datatype Action =
    | Begin(worker: nat, d: Delivery)
    | Step(worker: nat)
    | Fault(worker: nat, done: bool)  // persist returns an error, before or after the pending call took effect
    | Crash                           // the process dies; only files remain

  function Enter(encode: Encoder, d: Delivery): Phase {
    if !Complete(d) then Returned(d, Rejected(IncompleteIdentity))
    else if encode(d.payload).None? then Returned(d, Rejected(NotEncodable))
    else ReadingAlias(d)
  }

  /** One system call of one worker: the files afterwards and where the worker stands. */
  function Advance(encode: Encoder, f: Files, p: Phase): (Files, Phase) {
    match p
    case Idle => (f, p)
    case Returned(_, _) => (f, p)
    case ReadingAlias(d) =>
      if d.outboxID !in f.outbox then (f, ReadingEvent(d))
      else if f.outbox[d.outboxID] == RawIdentity(d) then (f, Returned(d, Accepted))
      else (f, Returned(d, Rejected(OutboxReused)))
    case ReadingEvent(d) =>
      if PathOf(d) !in f.events then (f, LinkingEvent(d))
      else if RawIdentity(f.events[PathOf(d)]) == RawIdentity(d) then (f, LinkingAlias(d))
      else (f, Returned(d, Rejected(EventReused)))
    case LinkingEvent(d) =>
      if PathOf(d) in f.events then (f, ComparingEvent(d))
      else if encode(d.payload).None? then (f, Returned(d, Rejected(NotEncodable)))
      else (f.(events := f.events[PathOf(d) := EventFile(encode, d)]), LinkingAlias(d))
    case ComparingEvent(d) =>
      if PathOf(d) in f.events && encode(d.payload).Some? && f.events[PathOf(d)] == EventFile(encode, d)
      then (f, LinkingAlias(d))
      else (f, Returned(d, Rejected(StorageFault)))
    case LinkingAlias(d) =>
      if d.outboxID in f.outbox then (f, ComparingAlias(d))
      else (f.(outbox := f.outbox[d.outboxID := RawIdentity(d)]), Returned(d, Accepted))
    case ComparingAlias(d) =>
      if d.outboxID in f.outbox && f.outbox[d.outboxID] == RawIdentity(d) then (f, Returned(d, Accepted))
      else (f, Returned(d, Rejected(StorageFault)))
  }

  predicate Resting(p: Phase) {
    p.Idle? || p.Returned?
  }

  function Apply(encode: Encoder, s: World, a: Action): (s': World)
    ensures |s'.workers| == |s.workers|
  {
    match a
    case Crash => s.(workers := seq(|s.workers|, _ => Idle))
    case Begin(w, d) =>
      if w < |s.workers| && Resting(s.workers[w])
      then s.(workers := s.workers[w := Enter(encode, d)]) else s
    case Fault(w, done) =>
      if w < |s.workers| && !Resting(s.workers[w])
      then World(if done then Advance(encode, s.files, s.workers[w]).0 else s.files,
                 s.workers[w := Returned(s.workers[w].d, Rejected(StorageFault))])
      else s
    case Step(w) =>
      if w < |s.workers|
      then var (f, p) := Advance(encode, s.files, s.workers[w]); World(f, s.workers[w := p]) else s
  }

  function Run(encode: Encoder, s: World, actions: seq<Action>): (s': World)
    ensures |s'.workers| == |s.workers|
    decreases |actions|
  {
    if actions == [] then s else Run(encode, Apply(encode, s, actions[0]), actions[1..])
  }

  /** What a worker already knows about the files where it stands. */
  ghost predicate PhaseSound(encode: Encoder, f: Files, p: Phase) {
    match p
    case Idle => true
    case Returned(d, outcome) => outcome == Accepted ==> Durable(encode, f, d)
    case ReadingAlias(d) => Complete(d) && encode(d.payload).Some?
    case ReadingEvent(d) => Complete(d) && encode(d.payload).Some?
    case LinkingEvent(d) => Complete(d) && encode(d.payload).Some?
    case ComparingEvent(d) => Complete(d) && encode(d.payload).Some? && PathOf(d) in f.events
    case LinkingAlias(d) => Complete(d) && EventStored(encode, f, d)
    case ComparingAlias(d) => Complete(d) && EventStored(encode, f, d) && d.outboxID in f.outbox
  }

  ghost predicate WorldSound(encode: Encoder, s: World) {
    && Coherent(encode, s.files)
    && forall w :: 0 <= w < |s.workers| ==> PhaseSound(encode, s.files, s.workers[w])
  }

  lemma GrowthKeepsPhases(encode: Encoder, f: Files, f': Files, p: Phase)
    requires FilesGrow(f, f') && PhaseSound(encode, f, p)
    ensures PhaseSound(encode, f', p)
  {
  }

  lemma LinkingEventIsSound(encode: Encoder, f: Files, d: Delivery)
    requires Stable(encode) && Coherent(encode, f) && PhaseSound(encode, f, LinkingEvent(d))
    ensures var (f', p') := Advance(encode, f, LinkingEvent(d));
            Coherent(encode, f') && FilesGrow(f, f') && PhaseSound(encode, f', p')
  {
    var f' := Advance(encode, f, LinkingEvent(d)).0;
    assert encode(encode(d.payload).value) == encode(d.payload);
    forall o | o in f'.outbox ensures AliasResolves(encode, f', f'.outbox[o]) {
      assert AliasResolves(encode, f, f.outbox[o]);
    }
  }

  lemma LinkingAliasIsSound(encode: Encoder, f: Files, d: Delivery)
    requires Coherent(encode, f) && PhaseSound(encode, f, LinkingAlias(d))
    ensures var (f', p') := Advance(encode, f, LinkingAlias(d));
            Coherent(encode, f') && FilesGrow(f, f') && PhaseSound(encode, f', p')
  {
    var f' := Advance(encode, f, LinkingAlias(d)).0;
    forall o | o in f'.outbox ensures AliasResolves(encode, f', f'.outbox[o]) {
      if o != d.outboxID { assert AliasResolves(encode, f, f.outbox[o]); }
    }
  }

  lemma AdvanceIsSound(encode: Encoder, f: Files, p: Phase)
    requires Stable(encode) && Coherent(encode, f) && PhaseSound(encode, f, p)
    ensures var (f', p') := Advance(encode, f, p);
            Coherent(encode, f') && FilesGrow(f, f') && PhaseSound(encode, f', p')
  {
    match p
    case LinkingEvent(d) => LinkingEventIsSound(encode, f, d);
    case LinkingAlias(d) => LinkingAliasIsSound(encode, f, d);
    case ReadingAlias(d) =>
      if d.outboxID in f.outbox { assert AliasResolves(encode, f, f.outbox[d.outboxID]); }
    case ReadingEvent(d) =>
      if PathOf(d) in f.events { assert PayloadFixed(encode, f.events[PathOf(d)]); }
    case _ =>
  }

  lemma ApplyIsSound(encode: Encoder, s: World, a: Action)
    requires Stable(encode) && WorldSound(encode, s)
    ensures WorldSound(encode, Apply(encode, s, a))
    ensures FilesGrow(s.files, Apply(encode, s, a).files)
  {
    if (a.Step? || a.Fault?) && a.worker < |s.workers| {
      hide Advance, Coherent, Stable, Grows;
      var s' := Apply(encode, s, a);
      AdvanceIsSound(encode, s.files, s.workers[a.worker]);
      forall w | 0 <= w < |s'.workers| && w != a.worker
        ensures PhaseSound(encode, s'.files, s'.workers[w])
      {
        GrowthKeepsPhases(encode, s.files, s'.files, s.workers[w]);
      }
    }
  }

  /** Over every run: aliases resolve, published files neither change nor vanish, and every
      worker that returned success finds its delivery durable. */
  lemma {:induction false} RunIsSound(encode: Encoder, s: World, actions: seq<Action>)
    requires Stable(encode) && WorldSound(encode, s)
    ensures WorldSound(encode, Run(encode, s, actions))
    ensures FilesGrow(s.files, Run(encode, s, actions).files)
    decreases |actions|
  {
    if actions != [] {
      ApplyIsSound(encode, s, actions[0]);
      RunIsSound(encode, Apply(encode, s, actions[0]), actions[1..]);
    }
  }

  /** Success is for ever: whatever any worker does later, and however often the process dies. */
  lemma AcceptedForever(encode: Encoder, workers: nat, before: seq<Action>, after: seq<Action>, w: nat)
    requires Stable(encode) && w < workers
    requires var s := Run(encode, World(NO_FILES, seq(workers, _ => Idle)), before);
             s.workers[w].Returned? && s.workers[w].outcome == Accepted
    ensures var s := Run(encode, World(NO_FILES, seq(workers, _ => Idle)), before);
            Durable(encode, Run(encode, s, after).files, s.workers[w].d)
  {
    var start := World(NO_FILES, seq(workers, _ => Idle));
    RunIsSound(encode, start, before);
    var s := Run(encode, start, before);
    RunIsSound(encode, s, after);
    GrowthKeepsPhases(encode, s.files, Run(encode, s, after).files, s.workers[w]);
  }

  /** No two successes ever contradict each other, however the workers raced and whenever they
      returned: one outbox ID stands for one delivery, one event name for one stored event. */
  lemma SuccessesNeverContradict(
    encode: Encoder, workers: nat, before: seq<Action>, after: seq<Action>, v: nat, w: nat)
    requires Stable(encode) && v < workers && w < workers
    requires var s := Run(encode, World(NO_FILES, seq(workers, _ => Idle)), before);
             var t := Run(encode, s, after);
             && s.workers[v].Returned? && s.workers[v].outcome == Accepted
             && t.workers[w].Returned? && t.workers[w].outcome == Accepted
    ensures var s := Run(encode, World(NO_FILES, seq(workers, _ => Idle)), before);
            var t := Run(encode, s, after);
            var d, e := s.workers[v].d, t.workers[w].d;
            && (d.outboxID == e.outboxID ==> RawIdentity(d) == RawIdentity(e))
            && (PathOf(d) == PathOf(e) ==>
                  && encode(d.payload).Some? && encode(e.payload).Some?
                  && StoredIdentity(encode, d) == StoredIdentity(encode, e))
  {
    var start := World(NO_FILES, seq(workers, _ => Idle));
    AcceptedForever(encode, workers, before, after, v);
    RunIsSound(encode, start, before);
    var s := Run(encode, start, before);
    RunIsSound(encode, s, after);
    var t := Run(encode, s, after);
    assert PhaseSound(encode, t.files, t.workers[w]);
    hide Run, Coherent;
  }

  // ---- Losing a race ----

  /** Where a worker ends that is left alone from some point on. */
  function Finish(encode: Encoder, f: Files, p: Phase, k: nat): Phase
    decreases k
  {
    if k == 0 then p else var (g, q) := Advance(encode, f, p); Finish(encode, g, q, k - 1)
  }

  /** A worker that finds another one has linked its event name first succeeds exactly when that
      file is its own to the last field, receive time included, and nobody bound its outbox ID to
      anything else meanwhile. */
  lemma LostRaceCondition(encode: Encoder, f: Files, d: Delivery)
    requires encode(d.payload).Some? && d.stream + ":" + d.eventID in f.events
    ensures Finish(encode, f, LinkingEvent(d), 4) == Returned(d, Accepted) <==>
              && f.events[d.stream + ":" + d.eventID] == d.(payload := encode(d.payload).value)
              && (d.outboxID in f.outbox ==>
                    f.outbox[d.outboxID] == Identity(d.stream, d.eventID, d.businessID, d.sequence, d.payload))
  {
    var p1 := Advance(encode, f, LinkingEvent(d)).1;
    assert p1 == ComparingEvent(d);
    var p2 := Advance(encode, f, p1).1;
    var (g, p3) := Advance(encode, f, p2);
    var p4 := Advance(encode, g, p3).1;
    assert Finish(encode, g, p4, 0) == p4;
    assert Finish(encode, g, p3, 1) == p4;
    assert Finish(encode, f, p2, 2) == p4;
    assert Finish(encode, f, p1, 3) == p4;
  }

  // ---- One worker alone ----

  /** A worker that started on `d` and has made `k` calls undisturbed. */
  function Solo(encode: Encoder, f: Files, d: Delivery, k: nat): (Files, Phase) {
    if k == 0 then (f, Enter(encode, d))
    else var (g, p) := Solo(encode, f, d, k - 1); Advance(encode, g, p)
  }

  /** The event file is on disk and the alias is not: the window between the two links. */
  function InWindow(encode: Encoder, f: Files, d: Delivery): Files
    requires encode(d.payload).Some?
  {
    f.(events := f.events[PathOf(d) := EventFile(encode, d)])
  }

  ghost predicate FreshAndAcceptable(encode: Encoder, f: Files, d: Delivery) {
    && Complete(d) && encode(d.payload).Some?
    && d.outboxID !in f.outbox && PathOf(d) !in f.events
  }

  lemma SoloFreshPath(encode: Encoder, f: Files, d: Delivery)
    requires FreshAndAcceptable(encode, f, d)
    ensures Solo(encode, f, d, 1) == (f, ReadingEvent(d))
    ensures Solo(encode, f, d, 2) == (f, LinkingEvent(d))
    ensures Solo(encode, f, d, 3) == (InWindow(encode, f, d), LinkingAlias(d))
    ensures Solo(encode, f, d, 4) == (Publish(encode, f, d), Returned(d, Accepted))
  {
    assert Solo(encode, f, d, 0) == (f, ReadingAlias(d));
    assert Solo(encode, f, d, 1) == (f, ReadingEvent(d));
    assert Solo(encode, f, d, 2) == (f, LinkingEvent(d));
    assert Solo(encode, f, d, 3) == (InWindow(encode, f, d), LinkingAlias(d));
  }

  /** Four undisturbed calls carry out the atomic operation: the steps refine it. */
  lemma SoloRefinesAtomic(encode: Encoder, f: Files, d: Delivery)
    requires Stable(encode) && Coherent(encode, f)
    ensures var (g, p) := Solo(encode, f, d, 4);
            && p.Returned? && p.d == d
            && (p.outcome == Accepted, g) == AtomicPersist(encode, f, d)
  {
    if FreshAndAcceptable(encode, f, d) {
      SoloFreshPath(encode, f, d);
      return;
    }
    var q0, q1, q2, q3 :=
      Solo(encode, f, d, 0), Solo(encode, f, d, 1), Solo(encode, f, d, 2), Solo(encode, f, d, 3);
    assert q1 == Advance(encode, q0.0, q0.1);
    assert q2 == Advance(encode, q1.0, q1.1);
    assert q3 == Advance(encode, q2.0, q2.1);
    if d.outboxID in f.outbox {
      assert AliasResolves(encode, f, f.outbox[d.outboxID]);
      assert f.outbox[d.outboxID := f.outbox[d.outboxID]] == f.outbox;
    } else if PathOf(d) in f.events {
      assert PayloadFixed(encode, f.events[PathOf(d)]);
    }
  }

  /** A worker stopped anywhere leaves the old files, the finished files, or the window. */
  lemma {:induction false} CutShortCases(encode: Encoder, f: Files, d: Delivery, k: nat)
    requires Stable(encode) && Coherent(encode, f)
    ensures var g := Solo(encode, f, d, k).0;
            || g == f
            || g == AtomicPersist(encode, f, d).1
            || (FreshAndAcceptable(encode, f, d) && g == InWindow(encode, f, d))
    decreases k
  {
    if k > 4 {
      SoloStays(encode, f, d, k);
      SoloRefinesAtomic(encode, f, d);
    } else if FreshAndAcceptable(encode, f, d) {
      SoloFreshPath(encode, f, d);
    } else {
      SoloRefinesAtomic(encode, f, d);
      SoloUnfreshFiles(encode, f, d, k);
    }
  }

  lemma {:induction false} SoloStays(encode: Encoder, f: Files, d: Delivery, k: nat)
    requires Stable(encode) && Coherent(encode, f) && k >= 4
    ensures Solo(encode, f, d, k) == Solo(encode, f, d, 4)
    decreases k
  {
    if k > 4 {
      SoloStays(encode, f, d, k - 1);
      SoloRefinesAtomic(encode, f, d);
    }
  }

  lemma SoloUnfreshFiles(encode: Encoder, f: Files, d: Delivery, k: nat)
    requires k <= 4 && !FreshAndAcceptable(encode, f, d)
    ensures var g := Solo(encode, f, d, k).0; g == f || g == Solo(encode, f, d, 4).0
  {
    var q0, q1, q2, q3, q4 := Solo(encode, f, d, 0), Solo(encode, f, d, 1),
      Solo(encode, f, d, 2), Solo(encode, f, d, 3), Solo(encode, f, d, 4);
    assert q1 == Advance(encode, q0.0, q0.1);
    assert q2 == Advance(encode, q1.0, q1.1);
    assert q3 == Advance(encode, q2.0, q2.1);
    assert q4 == Advance(encode, q3.0, q3.1);
    hide Solo, PathOf, RawIdentity, EventFile;
  }

  /** Stopping anywhere keeps the inbox coherent and loses nothing. */
  lemma CutShortKeepsInbox(encode: Encoder, f: Files, d: Delivery, k: nat)
    requires Stable(encode) && Coherent(encode, f)
    ensures Coherent(encode, Solo(encode, f, d, k).0) && FilesGrow(f, Solo(encode, f, d, k).0)
  {
    CutShortCases(encode, f, d, k);
    PersistKeepsInbox(encode, f, d);
    if FreshAndAcceptable(encode, f, d) {
      AdvanceIsSound(encode, f, LinkingEvent(d));
    }
  }

  /** Crash recovery: wherever persisting an acceptable delivery with a stored-form payload was
      cut short, delivering it again at any time succeeds; the event index then holds exactly
      one record more than before if the event was new, and none otherwise. */
  lemma RedeliveryRecovers(encode: Encoder, f: Files, d: Delivery, k: nat, t: int)
    requires Stable(encode) && Coherent(encode, f)
    requires Acceptable(encode, f, d) && PayloadFixed(encode, d)
    ensures var (ok, g) := AtomicPersist(encode, Solo(encode, f, d, k).0, d.(receivedAt := t));
            && ok && Durable(encode, g, d) && FilesGrow(f, g)
            && g.events.Keys == f.events.Keys + {PathOf(d)}
            && g.outbox.Keys == f.outbox.Keys + {d.outboxID}
  {
    hide Solo, Coherent, Stable;
    var d', h := d.(receivedAt := t), Solo(encode, f, d, k).0;
    assert PathOf(d') == PathOf(d) && RawIdentity(d') == RawIdentity(d);
    CutShortCases(encode, f, d, k);
    CutShortKeepsInbox(encode, f, d, k);
    PersistKeepsInbox(encode, f, d);
    PersistKeepsInbox(encode, h, d');
    hide PathOf, RawIdentity;
    assert Agrees(encode, h, d');
  }

  /** Otherwise the window is a trap: every redelivery is rejected and leaves the files alone. */
  lemma WindowRejectsRetry(encode: Encoder, f: Files, d: Delivery, t: int)
    requires Stable(encode) && Coherent(encode, f)
    requires FreshAndAcceptable(encode, f, d) && !PayloadFixed(encode, d)
    ensures Acceptable(encode, f, d)
    ensures AtomicPersist(encode, InWindow(encode, f, d), d.(receivedAt := t)) == (false, InWindow(encode, f, d))
  {
    var d' := d.(receivedAt := t);
    assert PathOf(d') == PathOf(d);
    assert Stranded(encode, InWindow(encode, f, d), d');
  }

  /** Exactly when a delivery the inbox would accept survives a crash at every step. */
  lemma RecoveryCondition(encode: Encoder, f: Files, d: Delivery)
    requires Stable(encode) && Coherent(encode, f) && Acceptable(encode, f, d)
    ensures (forall k: nat, t: int :: AtomicPersist(encode, Solo(encode, f, d, k).0, d.(receivedAt := t)).0)
       <==> (PayloadFixed(encode, d) || d.outboxID in f.outbox)
  {
    if PayloadFixed(encode, d) {
      forall k: nat, t: int ensures AtomicPersist(encode, Solo(encode, f, d, k).0, d.(receivedAt := t)).0 {
        RedeliveryRecovers(encode, f, d, k, t);
      }
    } else if d.outboxID in f.outbox {
      forall k: nat, t: int ensures AtomicPersist(encode, Solo(encode, f, d, k).0, d.(receivedAt := t)).0 {
        BoundDeliveryIsStill(encode, f, d, k);
        assert AliasResolves(encode, f, f.outbox[d.outboxID]);
        ExactRepeatIsIdempotent(encode, f, d, t);
      }
    } else {
      assert PathOf(d) !in f.events;
      SoloFreshPath(encode, f, d);
      WindowRejectsRetry(encode, f, d, d.receivedAt);
      assert !AtomicPersist(encode, Solo(encode, f, d, 3).0, d.(receivedAt := d.receivedAt)).0;
    }
  }

  lemma BoundDeliveryIsStill(encode: Encoder, f: Files, d: Delivery, k: nat)
    requires Stable(encode) && Coherent(encode, f) && Acceptable(encode, f, d)
    requires d.outboxID in f.outbox
    ensures Solo(encode, f, d, k).0 == f
  {
    CutShortCases(encode, f, d, k);
    assert AliasResolves(encode, f, f.outbox[d.outboxID]);
    assert f.outbox[d.outboxID := RawIdentity(d)] == f.outbox;
  }
}
