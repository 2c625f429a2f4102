/** What reusing one key and one body buys: at most one commit, over every network and every
    number of calls, whatever everybody else sends in between. */
module AtMostOnce {
  import opened Common
  import opened Backoff
  import opened ReplyReading
  import opened RetryClients

  /** How often the server committed a command under a key. */
  function CommitCount(commits: seq<Command>, key: string): nat {
    if commits == [] then 0
    else CommitCount(commits[..|commits| - 1], key) + if commits[|commits| - 1].key == key then 1 else 0
  }

  /** The store remembers exactly the keyed commits, each once. */
  ghost predicate Remembers(s: Server) {
    forall key :: key != "" ==> CommitCount(s.commits, key) == if key in s.store then 1 else 0
  }

  lemma HandleRemembers(s: Server, c: Command, decision: Decision)
    requires Remembers(s)
    ensures Remembers(Handle(s, c, decision).0)
    ensures Grows(s.store, Handle(s, c, decision).0.store)
  {
    var s' := Handle(s, c, decision).0;
    if s'.commits != s.commits {
      assert s'.commits[..|s'.commits| - 1] == s.commits;
    }
  }

  lemma {:induction false} HandleAllRemembers(s: Server, others: seq<Incoming>)
    requires Remembers(s)
    ensures Remembers(HandleAll(s, others)) && Grows(s.store, HandleAll(s, others).store)
    decreases |others|
  {
    if others != [] {
      HandleRemembers(s, others[0].command, others[0].decision);
      HandleAllRemembers(Handle(s, others[0].command, others[0].decision).0, others[1..]);
    }
  }

  /** What the server holds under the key explains a result: it is the stored response of this very
      body, except that Python takes a success whose body never came for an empty result. */
  ghost predicate Explains(s: Server, sdk: Sdk, w: Wire, last: Arrival, response: string) {
    && w.key in s.store && s.store[w.key].body == w.body
    && response == if sdk == Python && last.CutShort? then "" else s.store[w.key].response
  }

  lemma GrowsOn<K, V>(m: map<K, V>, m1: map<K, V>, m2: map<K, V>)
    requires Grows(m, m1)
    ensures m2 == m1 || Grows(m1, m2) ==> Grows(m, m2)
  {
  }

  lemma ExchangeRemembers(sdk: Sdk, s: Server, fate: Fate, w: Wire)
    requires Remembers(s)
    ensures var (s', arrival) := Exchange(s, fate, w);
            && Remembers(s') && Grows(s.store, s'.store)
            && (ViewOf(sdk, arrival).Success? && w.key != "" ==>
                  Explains(s', sdk, w, arrival, ViewOf(sdk, arrival).response))
  {
    hide Remembers, HandleAll, Grows;
    HandleAllRemembers(s, fate.others);
    HandleRemembers(HandleAll(s, fate.others), Command(w.key, w.body), fate.decision);
    GrowsOn(s.store, HandleAll(s, fate.others).store, Exchange(s, fate, w).0.store);
    ReadingRules(sdk, Exchange(s, fate, w).1);
  }

  /** Servers only learn, and every result is explained by the last of them. */
  lemma {:induction false} AttemptsRemember(
    sdk: Sdk, env: Environment, s: Server, w: Wire, mutation: bool, limit: nat, attempt: nat)
    requires Remembers(s) && 1 <= attempt <= limit
    ensures var c := Attempts(sdk, env, s, w, mutation, limit, attempt);
            && Remembers(c.server) && Grows(s.store, c.server.store) && c.arrivals != []
            && (c.outcome.Result? && w.key != "" ==>
                  Explains(c.server, sdk, w, c.arrivals[|c.arrivals| - 1], c.outcome.response))
    decreases limit - attempt
  {
    hide Exchange, HandleAll, Handle, Remembers, DelayBound, Draw, ViewOf, Explains, Attempts, LeadsOn;
    var (s', arrival) := Exchange(s, env(attempt), w);
    ExchangeRemembers(sdk, s, env(attempt), w);
    OneAttempt(sdk, env, s, w, mutation, limit, attempt);
    if attempt < limit {
      AttemptsRemember(sdk, env, s', w, mutation, limit, attempt + 1);
    }
  }

  /** What a result tells: the stored response, or nothing if Python lost the reply's body. */
  lemma ResultIsTheStoredResponse(sdk: Sdk, env: Environment, s: Server, w: Wire, maxAttempts: int)
    requires Remembers(s) && w.key != ""
    ensures var c := WholeCall(sdk, env, s, w, true, maxAttempts);
            c.outcome.Result? ==>
              && c.arrivals != [] && w.key in c.server.store && c.server.store[w.key].body == w.body
              && (c.outcome.response == c.server.store[w.key].response <==>
                    !(sdk == Python && c.arrivals[|c.arrivals| - 1].CutShort? && c.server.store[w.key].response != ""))
  {
    AttemptsRemember(sdk, env, s, w, true, AttemptLimit(maxAttempts), 1);
    hide Attempts, Remembers;
  }

  /** The exception happens: the response is stored, its body never comes, and Python returns an empty
      result where Go reports an open outcome. */
  lemma LostBodyIsAnEmptyResult(w: Wire, response: string, maxAttempts: int)
    requires w.key != ""
    ensures var env: Environment := _ => Fate([], Commit(response), BodyCut(false), false, 0);
            var c := WholeCall(Python, env, NEW_SERVER, w, true, maxAttempts);
            && c.outcome == Result("") && c.server.store == map[w.key := Stored(w.body, response)]
            && WholeCall(Go, env, NEW_SERVER, w, true, 1).outcome == TransportError(w.key)
  {
    var env: Environment := _ => Fate([], Commit(response), BodyCut(false), false, 0);
    var s1 := Server(map[w.key := Stored(w.body, response)], [Command(w.key, w.body)]);
    assert HandleAll(NEW_SERVER, []) == NEW_SERVER && [] + [Command(w.key, w.body)] == [Command(w.key, w.body)];
    assert Exchange(NEW_SERVER, env(1), w) == (s1, CutShort(200, false));
  }

  /** One call with a key: at most one commit, and exactly one if it returns a result. */
  lemma CallCommitsAtMostOnce(sdk: Sdk, env: Environment, s: Server, w: Wire, maxAttempts: int)
    requires Remembers(s) && w.key != ""
    ensures var c := WholeCall(sdk, env, s, w, true, maxAttempts);
            && CommitCount(c.server.commits, w.key) <= 1
            && (c.outcome.Result? ==> CommitCount(c.server.commits, w.key) == 1)
  {
    AttemptsRemember(sdk, env, s, w, true, AttemptLimit(maxAttempts), 1);
  }

  predicate Keyless(o: Outcome) {
    o.Cancelled? || o.Panicked? || o.Escaped?
  }

  /** Why a call whose last attempt has this number ends without naming its key: Python's loop did not
      catch what was raised, or a Go mutation was cancelled or ran into the overflow. */
  predicate Unnamed(sdk: Sdk, env: Environment, mutation: bool, limit: nat, last: nat, arrival: Arrival)
    requires last >= 1
  {
    || (sdk == Python && (arrival.Malformed? || arrival == Got(Indigestible)))
    || (sdk == Go && mutation && LeadsOn(Go, arrival) && last < limit && (DelayBound(Go, last) < 0 || env(last).cancelled))
  }

  /** Every transport, protocol and API error names the key a later call must reuse, and exactly the
      other endings do not. */
  lemma {:induction false} ErrorsNameTheKey(
    sdk: Sdk, env: Environment, s: Server, w: Wire, mutation: bool, limit: nat, attempt: nat)
    requires 1 <= attempt <= limit
    ensures var c := Attempts(sdk, env, s, w, mutation, limit, attempt);
            && 1 <= |c.sent| == |c.arrivals|
            && (c.outcome.TransportError? || c.outcome.ProtocolError? || c.outcome.ApiError? ==> c.outcome.key == w.key)
            && (Keyless(c.outcome) <==>
                  Unnamed(sdk, env, mutation, limit, attempt + |c.sent| - 1, c.arrivals[|c.arrivals| - 1]))
    decreases limit - attempt
  {
    hide Exchange, Attempts, DelayBound, Draw, LeadsOn, ViewOf;
    var (s', arrival) := Exchange(s, env(attempt), w);
    OneAttempt(sdk, env, s, w, mutation, limit, attempt);
    ReadingRules(sdk, arrival);
    if sdk == Python { IntendedBoundRange(attempt); }
    if attempt < limit {
      ErrorsNameTheKey(sdk, env, s', w, mutation, limit, attempt + 1);
    }
  }

  /** The server commits, and what comes back is no HTTP. */
  function GarbledReply(): Environment {
    _ => Fate([], Commit("done"), Instead(true, Malformed), false, 0)
  }

  /** The one request of a Python call is committed, and the caller gets neither a result nor a key,
      however many attempts were left; Go tries again and names the key. */
  lemma GarbledReplyHidesTheKey(w: Wire, maxAttempts: int)
    requires w.key != "" && maxAttempts >= 1
    ensures var c := WholeCall(Python, GarbledReply(), NEW_SERVER, w, true, maxAttempts);
            c.outcome == Escaped && |c.sent| == 1 && CommitCount(c.server.commits, w.key) == 1
    ensures var c := WholeCall(Go, GarbledReply(), NEW_SERVER, w, true, 1);
            c.outcome == TransportError(w.key) && CommitCount(c.server.commits, w.key) == 1
  {
    var c := Command(w.key, w.body);
    var s1 := Server(map[w.key := Stored(w.body, "done")], [c]);
    assert HandleAll(NEW_SERVER, []) == NEW_SERVER && [] + [c] == [c];
    assert Exchange(NEW_SERVER, GarbledReply()(1), w) == (s1, Malformed);
    assert [c][..0] == [] && CommitCount([c], w.key) == 1;
  }

  lemma NamedInGo(env: Environment, s: Server, w: Wire, mutation: bool, maxAttempts: int)
    requires !mutation || maxAttempts < 2
    ensures !Keyless(WholeCall(Go, env, s, w, mutation, maxAttempts).outcome)
  {
    hide Attempts, DelayBound, LeadsOn;
    ErrorsNameTheKey(Go, env, s, w, mutation, AttemptLimit(maxAttempts), 1);
  }

  /** Nothing comes back, or no HTTP, and the caller gives up. */
  function Hopeless(sdk: Sdk): Environment {
    _ => Fate([], Refuse("", true), Instead(false, if sdk == Go then NoReply else Malformed), true, 0)
  }

  lemma HopelessIsKeyless(sdk: Sdk, s: Server, w: Wire, mutation: bool, maxAttempts: int)
    requires sdk == Python || (mutation && maxAttempts >= 2)
    ensures Keyless(WholeCall(sdk, Hopeless(sdk), s, w, mutation, maxAttempts).outcome)
  {
    var limit := AttemptLimit(maxAttempts);
    assert Exchange(s, Hopeless(sdk)(1), w) == (s, if sdk == Go then NoReply else Malformed);
    OneAttempt(sdk, Hopeless(sdk), s, w, mutation, limit, 1);
    hide Attempts, Exchange, DelayBound;
  }

  /** Exactly which calls some environment can end without naming the key. */
  lemma KeyCanGoUnnamed(sdk: Sdk, s: Server, w: Wire, mutation: bool, maxAttempts: int)
    ensures (exists env: Environment :: Keyless(WholeCall(sdk, env, s, w, mutation, maxAttempts).outcome))
       <==> sdk == Python || (mutation && maxAttempts >= 2)
  {
    hide WholeCall, Keyless;
    if sdk == Python || (mutation && maxAttempts >= 2) {
      HopelessIsKeyless(sdk, s, w, mutation, maxAttempts);
    } else {
      forall env: Environment ensures !Keyless(WholeCall(sdk, env, s, w, mutation, maxAttempts).outcome) {
        NamedInGo(env, s, w, mutation, maxAttempts);
      }
    }
  }

  // ---- Any number of calls under one key ----

  /** One of several calls: its SDK, environment, generated IDs and attempt limit are its own. */
  datatype Plan = Plan(sdk: Sdk, env: Environment, generated: string, correlation: string, maxAttempts: int)

  function Campaign(s: Server, key: string, body: string, plans: seq<Plan>): (r: (Server, seq<Outcome>))
    ensures |r.1| == |plans|
    decreases |plans|
  {
    if plans == [] then (s, [])
    else
      var p := plans[0];
      var c := WholeCall(p.sdk, p.env, s, Wire(key, body, p.correlation), true, p.maxAttempts);
      var (s', rest) := Campaign(c.server, key, body, plans[1..]);
      (s', [c.outcome] + rest)
  }

  /** A result is the one stored response, or empty where Python lost the body. */
  predicate Fits(s: Server, key: string, body: string, sdk: Sdk, o: Outcome) {
    o.Result? ==>
      && key in s.store && s.store[key].body == body
      && (o.response == s.store[key].response || (sdk == Python && o.response == ""))
  }

  ghost predicate Replayed(s: Server, key: string, body: string, plans: seq<Plan>, outcomes: seq<Outcome>)
    requires |plans| == |outcomes|
  {
    forall i :: 0 <= i < |outcomes| ==> Fits(s, key, body, plans[i].sdk, outcomes[i])
  }

  lemma CallFits(p: Plan, s: Server, key: string, body: string)
    requires Remembers(s) && key != ""
    ensures var c := WholeCall(p.sdk, p.env, s, Wire(key, body, p.correlation), true, p.maxAttempts);
            Remembers(c.server) && Grows(s.store, c.server.store) && Fits(c.server, key, body, p.sdk, c.outcome)
  {
    hide Attempts, Remembers, Grows;
    AttemptsRemember(p.sdk, p.env, s, Wire(key, body, p.correlation), true, AttemptLimit(p.maxAttempts), 1);
  }

  lemma {:induction false} CampaignReplays(s: Server, key: string, body: string, plans: seq<Plan>)
    requires Remembers(s) && key != ""
    ensures var (s', outcomes) := Campaign(s, key, body, plans);
            Remembers(s') && Grows(s.store, s'.store) && Replayed(s', key, body, plans, outcomes)
    decreases |plans|
  {
    hide WholeCall, Remembers;
    if plans != [] {
      var p := plans[0];
      var c := WholeCall(p.sdk, p.env, s, Wire(key, body, p.correlation), true, p.maxAttempts);
      CallFits(p, s, key, body);
      CampaignReplays(c.server, key, body, plans[1..]);
      assert Fits(Campaign(s, key, body, plans).0, key, body, p.sdk, c.outcome);
      hide Fits;
    }
  }

  /** At-most-once effect: any number of calls from either SDK that reuse one key and body, over
      any networks and other traffic, leave at most one commit under the key, and all results
      they return are the same, unless Python lost the body of one. */
  lemma CampaignCommitsAtMostOnce(s: Server, key: string, body: string, plans: seq<Plan>)
    requires Remembers(s) && key != ""
    ensures var (s', outcomes) := Campaign(s, key, body, plans);
            && CommitCount(s'.commits, key) <= 1
            && (forall i, j ::
                  (0 <= i < |outcomes| && 0 <= j < |outcomes| && outcomes[i].Result? && outcomes[j].Result?)
                  ==> || outcomes[i] == outcomes[j]
                      || (plans[i].sdk == Python && outcomes[i] == Result(""))
                      || (plans[j].sdk == Python && outcomes[j] == Result("")))
            && ((exists i :: 0 <= i < |outcomes| && outcomes[i].Result?) ==> CommitCount(s'.commits, key) == 1)
  {
    CampaignReplays(s, key, body, plans);
  }

  /** Where the key already stands for another body, no number of attempts returns a result. */
  lemma ResultMeansOwnBody(sdk: Sdk, env: Environment, s: Server, w: Wire, maxAttempts: int)
    requires Remembers(s) && w.key != "" && w.key in s.store && s.store[w.key].body != w.body
    ensures !WholeCall(sdk, env, s, w, true, maxAttempts).outcome.Result?
  {
    AttemptsRemember(sdk, env, s, w, true, AttemptLimit(maxAttempts), 1);
  }

  /** The Go entry points behind every mutation: a client scoped to another business sends
      nothing, an empty key is replaced by a generated one, and the effect is at most once. */
  method Mutate(
    server: Endpoint, env: Environment, scope: string, businessID: string, body: string,
    key: string, generated: string, correlation: string, maxAttempts: int)
    returns (outcome: Option<Outcome>, used: string)
    requires generated != ""
    modifies server
    ensures used == if key == "" then generated else key
    ensures outcome.None? <==> scope != "" && businessID != "" && businessID != scope
    ensures outcome.None? ==> server.State() == old(server.State())
    ensures outcome.Some? ==>
              var c := WholeCall(Go, env, old(server.State()), Wire(used, body, correlation), true, maxAttempts);
              outcome.value == c.outcome && server.State() == c.server
    ensures Remembers(old(server.State())) && outcome.Some? && outcome.value.Result? ==>
              used in server.store && server.store[used] == Stored(body, outcome.value.response)
    ensures Remembers(old(server.State())) ==>
              && Remembers(server.State())
              && CommitCount(server.commits, used) <= 1
              && (outcome.Some? && outcome.value.Result? ==> CommitCount(server.commits, used) == 1)
    ensures outcome.Some? && outcome.value.TransportError? ==> outcome.value.key == used
  {
    used := key;
    if used == "" {
      used := generated;
    }
    if scope != "" && businessID != "" && businessID != scope {
      return None, used;
    }
    KeyedGoCall(env, server.State(), Wire(used, body, correlation), maxAttempts);
    hide WholeCall, Remembers, CommitCount;
    var o, sent, arrivals, waits := RequestWithHeaders(server, env, body, used, correlation, true, maxAttempts);
    return Some(o), used;
  }

  /** What one Go mutation under a key leaves behind. */
  lemma KeyedGoCall(env: Environment, s: Server, w: Wire, maxAttempts: int)
    requires w.key != ""
    ensures var c := WholeCall(Go, env, s, w, true, maxAttempts);
            && (c.outcome.TransportError? ==> c.outcome.key == w.key)
            && (Remembers(s) ==>
                  && Remembers(c.server) && CommitCount(c.server.commits, w.key) <= 1
                  && (c.outcome.Result? ==>
                        && CommitCount(c.server.commits, w.key) == 1
                        && w.key in c.server.store && c.server.store[w.key] == Stored(w.body, c.outcome.response)))
  {
    hide Attempts, Remembers, CommitCount, Unnamed;
    ErrorsNameTheKey(Go, env, s, w, true, AttemptLimit(maxAttempts), 1);
    if Remembers(s) {
      AttemptsRemember(Go, env, s, w, true, AttemptLimit(maxAttempts), 1);
      CallCommitsAtMostOnce(Go, env, s, w, maxAttempts);
    }
  }

  lemma CampaignFrom(s: Server, key: string, body: string, plans: seq<Plan>, i: nat)
    requires i < |plans|
    ensures var p := plans[i];
            var c := WholeCall(p.sdk, p.env, s, Wire(key, body, p.correlation), true, p.maxAttempts);
            var rest := Campaign(c.server, key, body, plans[i + 1..]);
            Campaign(s, key, body, plans[i..]) == (rest.0, [c.outcome] + rest.1)
  {
    hide WholeCall;
    assert plans[i..][0] == plans[i] && plans[i..][1..] == plans[i + 1..];
  }

  lemma EmptyCampaign(s: Server, key: string, body: string)
    ensures Campaign(s, key, body, []) == (s, [])
  {
  }

  /** What the transport errors of both SDKs ask of their callers: the same key and body again and
      again, through either SDK. All those calls together commit at most once, whatever new keys
      the Python calls could have generated. */
  method RepeatUnderOneKey(server: Endpoint, key: string, body: string, plans: seq<Plan>)
    returns (outcomes: seq<Outcome>)
    requires key != "" && forall i :: 0 <= i < |plans| && plans[i].sdk == Python ==> plans[i].maxAttempts >= 1
    modifies server
    ensures (server.State(), outcomes) == Campaign(old(server.State()), key, body, plans)
    ensures Remembers(old(server.State())) ==>
              && CommitCount(server.commits, key) <= 1
              && ((exists i :: 0 <= i < |outcomes| && outcomes[i].Result?) ==>
                    CommitCount(server.commits, key) == 1 && key in server.store && server.store[key].body == body)
  {
    ghost var before := server.State();
    outcomes := [];
    assert plans[0..] == plans && [] + Campaign(before, key, body, plans).1 == Campaign(before, key, body, plans).1;
    hide WholeCall, Remembers, CommitCount, Campaign;
    for i := 0 to |plans|
      invariant |outcomes| == i
      invariant var rest := Campaign(server.State(), key, body, plans[i..]);
                Campaign(before, key, body, plans) == (rest.0, outcomes + rest.1)
    {
      var p := plans[i];
      ghost var done := outcomes;
      CampaignFrom(server.State(), key, body, plans, i);
      var o, sent, arrivals, waits;
      if p.sdk == Go {
        o, sent, arrivals, waits := RequestWithHeaders(server, p.env, body, key, p.correlation, true, p.maxAttempts);
      } else {
        o, sent, arrivals, waits := Request(server, p.env, body, Some(key), p.generated, p.correlation, true, p.maxAttempts);
      }
      outcomes := outcomes + [o];
      ghost var tail := Campaign(server.State(), key, body, plans[i + 1..]);
      assert done + ([o] + tail.1) == outcomes + tail.1;
    }
    assert plans[|plans|..] == [] && outcomes + [] == outcomes;
    EmptyCampaign(server.State(), key, body);
    if Remembers(before) {
      CampaignCommitsAtMostOnce(before, key, body, plans);
      CampaignReplays(before, key, body, plans);
      hide Grows;
    }
  }

  // ---- Why the key matters ----

  /** The reply of the first attempt is lost and the server commits whatever is new. */
  function LostFirstReply(): Environment {
    attempt => Fate([], Commit("done"), if attempt == 1 then Instead(true, NoReply) else Delivered, false, 0)
  }

  const NEW_SERVER: Server := Server(map[], [])

  lemma WithoutKeyTwice(sdk: Sdk, w: Wire, maxAttempts: int)
    requires w.key == "" && maxAttempts >= 2
    ensures CommitCount(WholeCall(sdk, LostFirstReply(), NEW_SERVER, w, true, maxAttempts).server.commits, "") == 2
  {
    var env, c := LostFirstReply(), Command(w.key, w.body);
    var s1, s2 := Server(map[], [c]), Server(map[], [c, c]);
    assert HandleAll(NEW_SERVER, []) == NEW_SERVER && HandleAll(s1, []) == s1;
    assert [] + [c] == [c] && [c] + [c] == [c, c];
    assert Exchange(NEW_SERVER, env(1), w) == (s1, NoReply);
    assert Exchange(s1, env(2), w) == (s2, Got(Answer("done")));
    if sdk == Go { NoOverflowBefore38(1); }
    IntendedBoundRange(1);
    assert Attempts(sdk, env, s1, w, true, maxAttempts, 2).server == s2;
    assert WholeCall(sdk, env, NEW_SERVER, w, true, maxAttempts).server == s2;
    assert s2.commits[..1] == [c] && [c][..0] == [];
    assert CommitCount([c], "") == 1;
  }

  /** With two attempts or more, a mutation is at most once exactly when it carries a key: the
      add-on rollout call, which passes an empty key through, is not. */
  lemma AtMostOnceExactlyWithKey(sdk: Sdk, w: Wire, maxAttempts: int)
    requires maxAttempts >= 2
    ensures (forall env: Environment ::
               CommitCount(WholeCall(sdk, env, NEW_SERVER, w, true, maxAttempts).server.commits, w.key) <= 1)
       <==> w.key != ""
  {
    assert Remembers(NEW_SERVER);
    if w.key != "" {
      forall env: Environment
        ensures CommitCount(WholeCall(sdk, env, NEW_SERVER, w, true, maxAttempts).server.commits, w.key) <= 1
      {
        CallCommitsAtMostOnce(sdk, env, NEW_SERVER, w, maxAttempts);
      }
    } else {
      WithoutKeyTwice(sdk, w, maxAttempts);
    }
  }
}
