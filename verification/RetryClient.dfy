/**
 The attempt loop of both SDKs against a network that may lose or replace either half of an
 exchange and a server that remembers (key, body, response) for every command it committed.
 The server is an assumption: the same key and body replays the stored response, the same key
 with another body is refused, and a request without a key is a new command each time.
 */
module RetryClients {
  import opened Common
  import opened Backoff
  import opened ReplyReading

  datatype Command = Command(key: string, body: string)
  datatype Stored = Stored(body: string, response: string)
  datatype Server = Server(store: map<string, Stored>, commits: seq<Command>)

  /** What the server makes of a command it has not seen. */
  datatype Decision = Commit(response: string) | Refuse(code: string, retryable: bool)

  /** What a proxy, a time-out or a broken connection can put in place of the server's reply. */
  type NoSuccess = a: Arrival | !CarriesSuccess(a) witness NoReply

  /** The way of one attempt: both halves arrive, the reply's body breaks off, or something else
      comes back, whether or not the server was reached. */
  datatype Network = Delivered | BodyCut(kept: bool) | Instead(reached: bool, arrival: NoSuccess)

  /** One request on the wire; every header that matters for replay. */
  datatype Wire = Wire(key: string, body: string, correlation: string)

  /** Anybody else's request to the same server. */
  datatype Incoming = Incoming(command: Command, decision: Decision)

  /** The environment of one attempt: traffic before it, the verdict on it, its way through the
      network, whether the caller cancels the wait after it, and the random draw for that wait. */
  datatype Fate = Fate(others: seq<Incoming>, decision: Decision, network: Network, cancelled: bool, draw: nat)

  type Environment = nat -> Fate

  datatype Outcome =
    | Result(response: string)
    | ApiError(code: string, retryable: bool, key: string)
    | TransportError(key: string)
    | ProtocolError(key: string)
    | Cancelled  // the context error alone: no key
    | Panicked   // the random source was asked for a number below a non-positive bound
    | Escaped    // an exception the loop does not catch: no key

  datatype Call = Call(outcome: Outcome, server: Server, sent: seq<Wire>, arrivals: seq<Arrival>, waits: seq<int>)

  const KEY_REUSED: string := "IDEMPOTENCY_KEY_REUSED"

  /** A committed command is answered with its response, a refused one with an error envelope. */
  function Answer(response: string): Reply {
    Object(200, response, Missing)
  }

  function Refusal(code: string, retryable: bool): Reply {
    Object(409, "", Fields(Some(code), Some(retryable)))
  }

  function Handle(s: Server, c: Command, decision: Decision): (r: (Server, Reply))
    ensures r.1.Object?
  {
    if c.key != "" && c.key in s.store then
      (s, if s.store[c.key].body == c.body then Answer(s.store[c.key].response) else Refusal(KEY_REUSED, false))
    else match decision
      case Refuse(code, retryable) => (s, Refusal(code, retryable))
      case Commit(response) =>
        (Server(if c.key == "" then s.store else s.store[c.key := Stored(c.body, response)], s.commits + [c]),
         Answer(response))
  }

  function HandleAll(s: Server, others: seq<Incoming>): Server
    decreases |others|
  {
    if others == [] then s
    else HandleAll(Handle(s, others[0].command, others[0].decision).0, others[1..])
  }

  /** One attempt through network and server. */
  function Exchange(s: Server, fate: Fate, w: Wire): (Server, Arrival) {
    var s1 := HandleAll(s, fate.others);
    var (s2, reply) := Handle(s1, Command(w.key, w.body), fate.decision);
    match fate.network
    case Delivered => (s2, Got(reply))
    case BodyCut(kept) => (s2, CutShort(reply.status, kept))
    case Instead(reached, arrival) => (if reached then s2 else s1, arrival)
  }

  /** How a call ends on its last view. */
  function Conclude(v: View, key: string): Outcome {
    match v
    case Lost => TransportError(key)
    case Uncaught => Escaped
    case Unreadable => ProtocolError(key)
    case Failure(code, retryable) => ApiError(code, retryable, key)
    case Success(response) => Result(response)
  }

  /** A draw from 0..bound, as both random sources give it. */
  function Draw(draw: nat, bound: int): (wait: int)
    requires bound >= 0
    ensures 0 <= wait <= bound
  {
    draw % (bound + 1)
  }

  /** A further attempt in front of the rest of a call. */
  function Prepend(w: Wire, arrival: Arrival, wait: int, rest: Call): Call {
    rest.(sent := [w] + rest.sent, arrivals := [arrival] + rest.arrivals, waits := [wait] + rest.waits)
  }

  /** The rest of a call from a given attempt on. */
  function Attempts(sdk: Sdk, env: Environment, s: Server, w: Wire, mutation: bool, limit: nat, attempt: nat): Call
    requires 1 <= attempt <= limit
    decreases limit - attempt
  {
    var (s', arrival) := Exchange(s, env(attempt), w);
    var view := ViewOf(sdk, arrival);
    if !mutation || !MayRetry(view) || attempt == limit then
      Call(Conclude(view, w.key), s', [w], [arrival], [])
    else
      var bound := DelayBound(sdk, attempt);
      if bound < 0 then Call(Panicked, s', [w], [arrival], [])
      else if sdk == Go && env(attempt).cancelled then Call(Cancelled, s', [w], [arrival], [])
      else
        Prepend(w, arrival, Draw(env(attempt).draw, bound),
                Attempts(sdk, env, s', w, mutation, limit, attempt + 1))
  }

  function AttemptLimit(maxAttempts: int): nat {
    if maxAttempts < 1 then 1 else maxAttempts
  }

  function WholeCall(sdk: Sdk, env: Environment, s: Server, w: Wire, mutation: bool, maxAttempts: int): Call {
    Attempts(sdk, env, s, w, mutation, AttemptLimit(maxAttempts), 1)
  }

  function Sum(xs: seq<int>): int {
    if xs == [] then 0 else xs[0] + Sum(xs[1..])
  }

  /** The server as the object both loops talk to. */
  class Endpoint {
    var store: map<string, Stored>
    var commits: seq<Command>

    ghost function State(): Server
      reads this
    {
      Server(store, commits)
    }

    method Serve(c: Command, decision: Decision) returns (reply: Reply)
      modifies this
      ensures (State(), reply) == Handle(old(State()), c, decision)
    {
      if c.key != "" && c.key in store {
        if store[c.key].body == c.body {
          return Answer(store[c.key].response);
        }
        return Refusal(KEY_REUSED, false);
      }
      match decision {
        case Refuse(code, retryable) =>
          return Refusal(code, retryable);
        case Commit(response) =>
          if c.key != "" {
            store := store[c.key := Stored(c.body, response)];
          }
          commits := commits + [c];
          return Answer(response);
      }
    }

    /** One round trip: other traffic, then this request as far as the network carries it. */
    method Send(w: Wire, fate: Fate) returns (arrival: Arrival)
      modifies this
      ensures (State(), arrival) == Exchange(old(State()), fate, w)
    {
      for i := 0 to |fate.others|
        invariant HandleAll(State(), fate.others[i..]) == HandleAll(old(State()), fate.others)
      {
        assert fate.others[i..][0] == fate.others[i] && fate.others[i..][1..] == fate.others[i + 1..];
        var _ := Serve(fate.others[i].command, fate.others[i].decision);
      }
      assert fate.others[|fate.others|..] == [];
      if fate.network.Instead? && !fate.network.reached {
        return fate.network.arrival;
      }
      var reply := Serve(Command(w.key, w.body), fate.decision);
      match fate.network {
        case Delivered => arrival := Got(reply);
        case BodyCut(kept) => arrival := CutShort(reply.status, kept);
        case Instead(_, instead) => arrival := instead;
      }
    }
  }

  /** The loop so far and the rest of the call from here make up the whole call. */
  ghost predicate Continues(whole: Call, sent: seq<Wire>, arrivals: seq<Arrival>, waits: seq<int>, rest: Call) {
    && whole.outcome == rest.outcome && whole.server == rest.server
    && whole.sent == sent + rest.sent && whole.arrivals == arrivals + rest.arrivals && whole.waits == waits + rest.waits
  }

  /** The attempt that settles the call. */
  lemma LastAttempt(
    whole: Call, sent: seq<Wire>, arrivals: seq<Arrival>, waits: seq<int>,
    sdk: Sdk, env: Environment, s: Server, w: Wire, mutation: bool, limit: nat, attempt: nat)
    requires 1 <= attempt <= limit
    requires Continues(whole, sent, arrivals, waits, Attempts(sdk, env, s, w, mutation, limit, attempt))
    ensures var (s', arrival) := Exchange(s, env(attempt), w);
            var view := ViewOf(sdk, arrival);
            !mutation || !MayRetry(view) || attempt == limit ==>
              whole == Call(Conclude(view, w.key), s', sent + [w], arrivals + [arrival], waits)
  {
    hide Exchange, ViewOf;
  }

  /** The Go attempt after which the loop cannot or must not wait. */
  lemma StoppedAttempt(
    whole: Call, sent: seq<Wire>, arrivals: seq<Arrival>, waits: seq<int>,
    env: Environment, s: Server, w: Wire, limit: nat, attempt: nat)
    requires 1 <= attempt < limit && MayRetry(ViewOf(Go, Exchange(s, env(attempt), w).1))
    requires Continues(whole, sent, arrivals, waits, Attempts(Go, env, s, w, true, limit, attempt))
    ensures var (s', arrival) := Exchange(s, env(attempt), w);
            var bound := DelayBound(Go, attempt);
            bound < 0 || env(attempt).cancelled ==>
              whole == Call(if bound < 0 then Panicked else Cancelled, s', sent + [w], arrivals + [arrival], waits)
  {
    hide Exchange, DelayBound, ViewOf;
  }

  /** The attempt that another one follows. */
  lemma NextAttempt(
    whole: Call, sent: seq<Wire>, arrivals: seq<Arrival>, waits: seq<int>,
    sdk: Sdk, env: Environment, s: Server, w: Wire, limit: nat, attempt: nat)
    requires 1 <= attempt < limit && MayRetry(ViewOf(sdk, Exchange(s, env(attempt), w).1))
    requires DelayBound(sdk, attempt) >= 0 && (sdk == Go ==> !env(attempt).cancelled)
    requires Continues(whole, sent, arrivals, waits, Attempts(sdk, env, s, w, true, limit, attempt))
    ensures var (s', arrival) := Exchange(s, env(attempt), w);
            Continues(whole, sent + [w], arrivals + [arrival], waits + [Draw(env(attempt).draw, DelayBound(sdk, attempt))],
                      Attempts(sdk, env, s', w, true, limit, attempt + 1))
  {
    hide Exchange, DelayBound, Draw, ViewOf;
    var (s', arrival) := Exchange(s, env(attempt), w);
    var wait := Draw(env(attempt).draw, DelayBound(sdk, attempt));
    var rest := Attempts(sdk, env, s', w, true, limit, attempt + 1);
    assert sent + ([w] + rest.sent) == sent + [w] + rest.sent;
    assert arrivals + ([arrival] + rest.arrivals) == arrivals + [arrival] + rest.arrivals;
    assert waits + ([wait] + rest.waits) == waits + [wait] + rest.waits;
  }

  /** The Go attempt loop. */
  method RequestWithHeaders(
    server: Endpoint, env: Environment, body: string, key: string, correlation: string,
    mutation: bool, maxAttempts: int)
    returns (outcome: Outcome, sent: seq<Wire>, arrivals: seq<Arrival>, waits: seq<int>)
    modifies server
    ensures Call(outcome, server.State(), sent, arrivals, waits)
         == WholeCall(Go, env, old(server.State()), Wire(key, body, correlation), mutation, maxAttempts)
  {
    var attempts := maxAttempts;
    if attempts < 1 {
      attempts := 1;
    }
    hide Exchange, HandleAll, Handle, Attempts, DelayBound, IntendedBound, Draw, ReplyView;
    var w := Wire(key, body, correlation);
    ghost var whole := WholeCall(Go, env, server.State(), w, mutation, maxAttempts);
    outcome, sent, arrivals, waits := TransportError(key), [], [], [];
    var attempt := 1;
    while attempt <= attempts
      invariant 1 <= attempt <= attempts
      invariant Continues(whole, sent, arrivals, waits, Attempts(Go, env, server.State(), w, mutation, attempts, attempt))
      decreases attempts - attempt
    {
      LastAttempt(whole, sent, arrivals, waits, Go, env, server.State(), w, mutation, attempts, attempt);
      ghost var before, sentBefore, arrivalsBefore := server.State(), sent, arrivals;
      var fate := env(attempt);
      var arrival := server.Send(w, fate);
      sent, arrivals := sent + [w], arrivals + [arrival];
      if !arrival.Got? {
        if !mutation || attempt == attempts {
          outcome := TransportError(key);
          return;
        }
      } else {
        var view := ReadReply(arrival.reply);
        if view.Unreadable? {
          outcome := ProtocolError(key);
          return;
        }
        if view.Success? {
          outcome := Result(view.response);
          return;
        }
        if !mutation || !view.retryable || attempt == attempts {
          outcome := ApiError(view.code, view.retryable, key);
          return;
        }
      }
      StoppedAttempt(whole, sentBefore, arrivalsBefore, waits, env, before, w, attempts, attempt);
      var bound := DelayBound(Go, attempt);
      if bound + 1 <= 0 {
        outcome := Panicked;
        return;
      }
      if fate.cancelled {
        outcome := Cancelled;
        return;
      }
      NextAttempt(whole, sentBefore, arrivalsBefore, waits, Go, env, before, w, attempts, attempt);
      waits := waits + [Draw(fate.draw, bound)];
      attempt := attempt + 1;
    }
    assert false;  // the statement after the loop is never reached
  }

  /** What the Python transport does with an arrival: it returns a reply, or raises an exception
      that the loop catches or does not catch. */
  datatype Transported = Returned(reply: Reply) | RaisedCaught | RaisedUncaught

  function DefaultTransport(a: Arrival): Transported {
    match a
    case NoReply => RaisedCaught
    case Malformed => RaisedUncaught
    case CutShort(status, kept) => Returned(Remnant(status, kept))
    case Got(reply) => Returned(reply)
  }

  /** The Python attempt loop; the key falls back to a generated one for mutations only. */
  method Request(
    server: Endpoint, env: Environment, body: string, idempotencyKey: Option<string>, generated: string,
    correlation: string, mutation: bool, maxAttempts: int)
    returns (outcome: Outcome, sent: seq<Wire>, arrivals: seq<Arrival>, waits: seq<int>)
    requires maxAttempts >= 1
    modifies server
    ensures Call(outcome, server.State(), sent, arrivals, waits)
         == WholeCall(Python, env, old(server.State()),
                      Wire(PythonKey(idempotencyKey, generated, mutation), body, correlation), mutation, maxAttempts)
    ensures sent != []
    ensures idempotencyKey.Some? && idempotencyKey.value != "" ==>
              forall k :: 0 <= k < |sent| ==> sent[k] == Wire(idempotencyKey.value, body, correlation)
    ensures idempotencyKey.None? || idempotencyKey.value == "" ==>
              forall k :: 0 <= k < |sent| ==> sent[k] == Wire(if mutation then generated else "", body, correlation)
  {
    hide Exchange, HandleAll, Handle, Attempts, DelayBound, IntendedBound, Draw, ReplyView;
    SameRequestThroughout(Python, env, server.State(),
      Wire(PythonKey(idempotencyKey, generated, mutation), body, correlation), mutation, maxAttempts);
    var key := PythonKey(idempotencyKey, generated, mutation);
    var w := Wire(key, body, correlation);
    ghost var whole := WholeCall(Python, env, server.State(), w, mutation, maxAttempts);
    outcome, sent, arrivals, waits := TransportError(key), [], [], [];
    var attempt := 1;
    while attempt <= maxAttempts
      invariant 1 <= attempt <= maxAttempts
      invariant Continues(whole, sent, arrivals, waits,
                          Attempts(Python, env, server.State(), w, mutation, maxAttempts, attempt))
      decreases maxAttempts - attempt
    {
      LastAttempt(whole, sent, arrivals, waits, Python, env, server.State(), w, mutation, maxAttempts, attempt);
      ghost var before, sentBefore, arrivalsBefore := server.State(), sent, arrivals;
      var arrival := server.Send(w, env(attempt));
      sent, arrivals := sent + [w], arrivals + [arrival];
      match DefaultTransport(arrival) {
        case RaisedUncaught =>
          outcome := Escaped;
          return;
        case RaisedCaught =>
          if !mutation || attempt == maxAttempts {
            outcome := TransportError(key);
            return;
          }
        case Returned(reply) =>
          var view := ReadReplyPython(reply);
          if view.Uncaught? {
            outcome := Escaped;
            return;
          }
          if view.Unreadable? {
            outcome := ProtocolError(key);
            return;
          }
          if view.Success? {
            outcome := Result(view.response);
            return;
          }
          if !mutation || !view.retryable || attempt == maxAttempts {
            outcome := ApiError(view.code, view.retryable, key);
            return;
          }
      }
      IntendedBoundRange(attempt);
      NextAttempt(whole, sentBefore, arrivalsBefore, waits, Python, env, before, w, maxAttempts, attempt);
      waits := waits + [Draw(env(attempt).draw, DelayBound(Python, attempt))];
      attempt := attempt + 1;
    }
    assert false;  // the statement after the loop is never reached
  }

  /** idempotency_key or (a new UUID if mutation else None); no key is sent as no header. */
  function PythonKey(idempotencyKey: Option<string>, generated: string, mutation: bool): (key: string)
    ensures idempotencyKey.Some? && idempotencyKey.value != "" ==> key == idempotencyKey.value
    ensures idempotencyKey.None? || idempotencyKey.value == "" ==> key == if mutation then generated else ""
  {
    if idempotencyKey.Some? && idempotencyKey.value != "" then idempotencyKey.value
    else if mutation then generated else ""
  }

  // ---- Control flow over every sequence of outcomes ----

  /** The arrivals after which a mutation may go on: no readable reply, or one that says so itself. */
  predicate LeadsOn(sdk: Sdk, a: Arrival) {
    TransportFails(sdk, a) || (a.Got? && SaysRetryable(a.reply))
  }

  /** A call with room for that many attempts keeps to the rules of the loop. */
  ghost predicate Controlled(c: Call, sdk: Sdk, w: Wire, mutation: bool, room: nat) {
    && 1 <= |c.sent| == |c.arrivals| <= (if mutation then room else 1)
    && |c.waits| == |c.sent| - 1
    && (forall k :: 0 <= k < |c.sent| ==> c.sent[k] == w)
    && (forall k :: 0 <= k < |c.arrivals| - 1 ==> LeadsOn(sdk, c.arrivals[k]))
    && var last := c.arrivals[|c.arrivals| - 1];
       || (&& c.outcome == Conclude(ViewOf(sdk, last), w.key)
           && (mutation && LeadsOn(sdk, last) ==> |c.sent| == room))
       || (&& sdk == Go && mutation && LeadsOn(Go, last) && |c.sent| < room
           && (c.outcome.Cancelled? || c.outcome.Panicked?))
  }

  lemma PrependIsControlled(c: Call, sdk: Sdk, w: Wire, room: nat, arrival: Arrival, wait: int)
    requires Controlled(c, sdk, w, true, room) && LeadsOn(sdk, arrival)
    ensures Controlled(Prepend(w, arrival, wait, c), sdk, w, true, room + 1)
  {
    hide LeadsOn, ViewOf, Conclude;
    var p := Prepend(w, arrival, wait, c);
    assert p.arrivals[|p.arrivals| - 1] == c.arrivals[|c.arrivals| - 1];
  }

  /** Every request of a call is the one it was made for. */
  lemma SameRequestThroughout(sdk: Sdk, env: Environment, s: Server, w: Wire, mutation: bool, maxAttempts: int)
    ensures var sent := WholeCall(sdk, env, s, w, mutation, maxAttempts).sent;
            sent != [] && forall k :: 0 <= k < |sent| ==> sent[k] == w
  {
    LoopControl(sdk, env, s, w, mutation, AttemptLimit(maxAttempts), 1);
    hide Attempts, LeadsOn;
  }

  /** How the last arrival ends a call that was neither cancelled nor stopped by the overflow. */
  lemma LastArrivalDecides(sdk: Sdk, env: Environment, s: Server, w: Wire, mutation: bool, limit: nat, attempt: nat)
    requires 1 <= attempt <= limit
    ensures var c := Attempts(sdk, env, s, w, mutation, limit, attempt);
            c.arrivals != [] && (!c.outcome.Cancelled? && !c.outcome.Panicked? ==>
              match c.arrivals[|c.arrivals| - 1]
              case NoReply => c.outcome == TransportError(w.key)
              case Malformed => c.outcome == if sdk == Go then TransportError(w.key) else Escaped
              case CutShort(status, kept) =>
                c.outcome == (
                  if sdk == Go then TransportError(w.key)
                  else if kept then ProtocolError(w.key)
                  else if 200 <= status < 300 then Result("")
                  else ApiError("HTTP_ERROR", false, w.key))
              case Got(Oversized) => c.outcome == ProtocolError(w.key)
              case Got(NotJsonObject) => c.outcome == ProtocolError(w.key)
              case Got(Indigestible) => c.outcome == if sdk == Go then ProtocolError(w.key) else Escaped
              case Got(Object(status, text, error)) =>
                if 200 <= status < 300 then c.outcome == Result(text)
                else match error
                  case Missing => c.outcome == ApiError("HTTP_ERROR", false, w.key)
                  case NotAnObject =>
                    c.outcome == if sdk == Go then ApiError("HTTP_ERROR", false, w.key) else ProtocolError(w.key)
                  case Fields(code, retryable) =>
                    c.outcome == ApiError(if code == None then "HTTP_ERROR" else code.value, retryable == Some(true), w.key))
  {
    LoopControl(sdk, env, s, w, mutation, limit, attempt);
    hide Attempts, LeadsOn;
  }

  /** Exactly the arrivals after which a mutation may be sent again. */
  lemma LeadsOnExactly(sdk: Sdk, a: Arrival)
    ensures LeadsOn(sdk, a) <==>
              || a.NoReply?
              || (sdk == Go && (a.Malformed? || a.CutShort?))
              || (a.Got? && a.reply.Object? && !(200 <= a.reply.status < 300)
                  && a.reply.error.Fields? && a.reply.error.retryable == Some(true))
  {
  }

  /** Full jitter: every wait up to the bound is drawn by some draw. */
  lemma EveryWaitIsDrawn(bound: int, wait: int)
    requires 0 <= wait <= bound
    ensures exists draw: nat :: Draw(draw, bound) == wait
  {
    assert Draw(wait, bound) == wait;
  }

  /** The wait after each attempt is drawn under the bound of that attempt. */
  lemma {:induction false} WaitsAreDrawn(
    sdk: Sdk, env: Environment, s: Server, w: Wire, mutation: bool, limit: nat, attempt: nat, k: nat)
    requires 1 <= attempt <= limit
    requires k < |Attempts(sdk, env, s, w, mutation, limit, attempt).waits|
    ensures var bound := DelayBound(sdk, attempt + k);
            bound >= 0 && Attempts(sdk, env, s, w, mutation, limit, attempt).waits[k] == Draw(env(attempt + k).draw, bound)
    decreases limit - attempt
  {
    hide Exchange, Attempts, DelayBound, Draw, LeadsOn, ViewOf, Conclude;
    OneAttempt(sdk, env, s, w, mutation, limit, attempt);
    if k > 0 {
      WaitsAreDrawn(sdk, env, Exchange(s, env(attempt), w).0, w, mutation, limit, attempt + 1, k - 1);
    }
  }

  /** The three ways an attempt goes on. */
  lemma OneAttempt(sdk: Sdk, env: Environment, s: Server, w: Wire, mutation: bool, limit: nat, attempt: nat)
    requires 1 <= attempt <= limit
    ensures var (s', arrival) := Exchange(s, env(attempt), w);
            var c := Attempts(sdk, env, s, w, mutation, limit, attempt);
            if !mutation || !LeadsOn(sdk, arrival) || attempt == limit
            then c == Call(Conclude(ViewOf(sdk, arrival), w.key), s', [w], [arrival], [])
            else if DelayBound(sdk, attempt) < 0 || (sdk == Go && env(attempt).cancelled)
            then c == Call(if DelayBound(sdk, attempt) < 0 then Panicked else Cancelled, s', [w], [arrival], [])
            else c == Prepend(w, arrival, Draw(env(attempt).draw, DelayBound(sdk, attempt)),
                              Attempts(sdk, env, s', w, mutation, limit, attempt + 1))
  {
    ReadingRules(sdk, Exchange(s, env(attempt), w).1);
    hide Exchange, ViewOf, Conclude, DelayBound, Draw, Prepend;
  }

  /** A read sends one request and a mutation at most the limit; every request is the same; only a
      transport failure or a reply that says so itself leads on, and a mutation that may go on does,
      unless it is cancelled or the arithmetic fails; the last arrival decides how the call ends. */
  lemma {:induction false} LoopControl(
    sdk: Sdk, env: Environment, s: Server, w: Wire, mutation: bool, limit: nat, attempt: nat)
    requires 1 <= attempt <= limit
    ensures Controlled(Attempts(sdk, env, s, w, mutation, limit, attempt), sdk, w, mutation, limit - attempt + 1)
    decreases limit - attempt
  {
    hide Exchange, Attempts, DelayBound, Draw, Conclude, ViewOf, LeadsOn;
    OneAttempt(sdk, env, s, w, mutation, limit, attempt);
    if sdk == Python { IntendedBoundRange(attempt); }
    if attempt < limit {
      var (s', arrival) := Exchange(s, env(attempt), w);
      LoopControl(sdk, env, s', w, mutation, limit, attempt + 1);
      if mutation && LeadsOn(sdk, arrival) && DelayBound(sdk, attempt) >= 0 && (sdk == Go ==> !env(attempt).cancelled) {
        PrependIsControlled(Attempts(sdk, env, s', w, mutation, limit, attempt + 1), sdk, w, limit - attempt,
                            arrival, Draw(env(attempt).draw, DelayBound(sdk, attempt)));
      }
    }
  }

  /** Waits stay within the intended bounds, whatever the environment. */
  lemma {:induction false} WaitsAreBounded(
    sdk: Sdk, env: Environment, s: Server, w: Wire, mutation: bool, limit: nat, attempt: nat)
    requires 1 <= attempt <= limit
    ensures var c := Attempts(sdk, env, s, w, mutation, limit, attempt);
            && (forall k :: 0 <= k < |c.waits| ==> 0 <= c.waits[k] <= TWO_SECONDS)
            && 0 <= Sum(c.waits) <= TotalBound(limit) - TotalBound(attempt)
    decreases limit - attempt
  {
    hide Exchange, ViewOf, Conclude, DelayBound, IntendedBound;
    if attempt < limit {
      WaitsAreBounded(sdk, env, Exchange(s, env(attempt), w).0, w, mutation, limit, attempt + 1);
      IntendedBoundRange(attempt);
      DelayWithinIntended(sdk, attempt);
      TotalBoundGrows(attempt + 1, limit);
    }
  }

  /** From six attempts on, a whole call waits at most 3.1 s and 2 s for each further attempt. */
  lemma TotalWait(sdk: Sdk, env: Environment, s: Server, w: Wire, mutation: bool, maxAttempts: int)
    requires maxAttempts >= 6
    ensures Sum(WholeCall(sdk, env, s, w, mutation, maxAttempts).waits)
              <= 3_100_000_000 + TWO_SECONDS * (maxAttempts - 6)
  {
    hide Attempts, IntendedBound;
    WaitsAreBounded(sdk, env, s, w, mutation, maxAttempts, 1);
    TotalBoundClosed(maxAttempts);
  }

  lemma {:induction false} TotalBoundGrows(m: nat, n: nat)
    requires m <= n
    ensures TotalBound(m) <= TotalBound(n)
  {
    if m < n {
      TotalBoundGrows(m, n - 1);
      if n >= 2 { IntendedBoundRange(n - 1); }
    }
  }

  /** With at most 38 attempts the Go loop never asks for a random number below a bad bound. */
  lemma {:induction false} NoPanicUpTo38(env: Environment, s: Server, w: Wire, mutation: bool, limit: nat, attempt: nat)
    requires 1 <= attempt <= limit <= 38
    ensures !Attempts(Go, env, s, w, mutation, limit, attempt).outcome.Panicked?
    decreases limit - attempt
  {
    if attempt < limit {
      NoOverflowBefore38(attempt);
      var s' := Exchange(s, env(attempt), w).0;
      NoPanicUpTo38(env, s', w, mutation, limit, attempt + 1);
    }
  }

  function Unreachable(): Environment {
    _ => Fate([], Refuse("", true), Instead(false, NoReply), false, 0)
  }

  lemma {:induction false} UnreachableServerPanics(s: Server, w: Wire, limit: nat, attempt: nat)
    requires limit >= 39 && 1 <= attempt <= 38
    ensures Attempts(Go, Unreachable(), s, w, true, limit, attempt).outcome.Panicked?
    decreases 38 - attempt
  {
    assert Exchange(s, Unreachable()(attempt), w) == (s, NoReply);
    if attempt < 38 {
      NoOverflowBefore38(attempt);
      UnreachableServerPanics(s, w, limit, attempt + 1);
    } else {
      OverflowAt38();
    }
  }

  /** Exactly when some environment makes the Go loop panic. */
  lemma PanicsExactlyFrom39(s: Server, w: Wire, mutation: bool, maxAttempts: int)
    ensures (exists env: Environment :: WholeCall(Go, env, s, w, mutation, maxAttempts).outcome.Panicked?)
       <==> mutation && maxAttempts >= 39
  {
    if mutation && maxAttempts >= 39 {
      UnreachableServerPanics(s, w, maxAttempts, 1);
      assert WholeCall(Go, Unreachable(), s, w, mutation, maxAttempts).outcome.Panicked?;
    } else {
      forall env: Environment ensures !WholeCall(Go, env, s, w, mutation, maxAttempts).outcome.Panicked? {
        LoopControl(Go, env, s, w, mutation, AttemptLimit(maxAttempts), 1);
        if mutation { NoPanicUpTo38(env, s, w, mutation, AttemptLimit(maxAttempts), 1); }
      }
    }
  }
}
