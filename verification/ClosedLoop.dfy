/**
 Load clients, a network and the echo worker together. The network delivers each packet at most once and in any order,
 a session's acceptance before its packets and none after its session closed; the clock never goes back and shows a
 positive 64-bit count.
 */
module ClosedLoop {
  import opened Prelude
  import opened BenchmarkProtocol
  import opened LoadSchedule
  import opened LoadWorker
  import opened EchoServer

  /** A packet's identity in the network: who sent the request, and under which number. */
  datatype Key = Key(client: nat, sequence: nat)

  datatype Session = Unseen | Active | Closed

  /** `requests` and `responses` are the packets in flight; the two flags say that a side refused what it got. */
  datatype State = State(
    now: int, clients: seq<LoadClient>, requests: map<Key, seq<byte>>, responses: map<Key, seq<byte>>,
    sessions: seq<Session>, channels: map<SessionKey, Channel>, drainOnly: bool,
    serverFailed: bool, clientFailed: bool)

  datatype Step =
    | Advance(later: int)
    | Accept(client: nat)
    | Submit(client: nat, scheduledAt: int, recordMeasurement: bool)
    | LoseRequest(key: Key)
    | LoseResponse(key: Key)
    | Serve(key: Key, prepared: int)
    | Receive(key: Key)
    | BeginDrain
    | Close(client: nat)

  ghost predicate Initial(s: State) {
    && 0 < s.now <= INT64_MAX && |s.sessions| == |s.clients|
    && (forall i | 0 <= i < |s.clients| :: s.clients[i].nextSequence == 1 && s.clients[i].outstanding == map[])
    && (forall i | 0 <= i < |s.sessions| :: s.sessions[i] == Unseen)
    && s.requests == map[] && s.responses == map[] && s.channels == map[]
    && !s.drainOnly && !s.serverFailed && !s.clientFailed
  }

  predicate Enabled(s: State, step: Step) {
    match step
    case Advance(later) => s.now <= later <= INT64_MAX
    case Accept(client) => client < |s.sessions| && s.sessions[client] == Unseen
    case Submit(client, _, _) => client < |s.clients| && s.clients[client].nextSequence < UINT64_MAX
    case LoseRequest(key) => key in s.requests
    case LoseResponse(key) => key in s.responses
    case Serve(key, prepared) =>
      && key in s.requests && key.client < |s.sessions| && s.sessions[key.client] == Active
      && s.now <= prepared <= INT64_MAX
    case Receive(key) => key in s.responses && key.client < |s.clients|
    case BeginDrain => true
    case Close(client) => client < |s.sessions| && s.sessions[client] == Active
  }

  /** A load client fills a slot: the request goes into the network and onto the client's books. */
  function AfterSubmit(s: State, i: nat, scheduledAt: int, recordMeasurement: bool): State
    requires i < |s.clients| && s.clients[i].nextSequence < UINT64_MAX
  {
    var c, stamp := s.clients[i], Timestamp(s.now);
    s.(clients := s.clients[i := AfterSend(c, Outstanding(scheduledAt, s.now, stamp, recordMeasurement))],
       requests := s.requests[Key(i, c.nextSequence) := Canonical(RequestPayload(c.clientId, c.nextSequence, stamp))])
  }

  function AfterSession(s: State, event: Event, i: nat, session: Session): State
    requires i < |s.sessions|
  {
    var t := s.(sessions := s.sessions[i := session]);
    if Handles(s.channels, s.drainOnly, event, 0, 0, true) then t.(channels := ChannelsAfter(s.channels, event))
    else t.(serverFailed := true)
  }

  /** The echo worker gets a request and, unless it is draining, its answer goes into the network. */
  function AfterServe(s: State, key: Key, prepared: int): State
    requires key in s.requests
  {
    var payload := s.requests[key];
    var event := PacketReceived(key.client, true, REQUEST_PACKET_TYPE, Some(payload));
    var t := s.(requests := s.requests - {key}, now := prepared);
    if !Handles(s.channels, s.drainOnly, event, Timestamp(s.now), Timestamp(prepared), true) then
      t.(serverFailed := true)
    else if s.drainOnly || |payload| != CANONICAL_PAYLOAD_BYTES then t
    else t.(responses := s.responses[key := Echo(payload, Timestamp(s.now), Timestamp(prepared))])
  }

  /** A load client gets a response and completes the request it answers. */
  function AfterReceive(s: State, key: Key): State
    requires key in s.responses && key.client < |s.clients|
  {
    var payload, c := s.responses[key], s.clients[key.client];
    var t := s.(responses := s.responses - {key});
    if !Answers(c, true, RESPONSE_PACKET_TYPE, payload) then t.(clientFailed := true)
    else t.(clients := s.clients[key.client := Without(c, Fields(payload).sequence)])
  }

  function Next(s: State, step: Step): State
    requires Enabled(s, step)
  {
    match step
    case Advance(later) => s.(now := later)
    case Accept(client) => AfterSession(s, SessionAccepted(client, Some(client)), client, Active)
    case Submit(client, scheduledAt, recordMeasurement) => AfterSubmit(s, client, scheduledAt, recordMeasurement)
    case LoseRequest(key) => s.(requests := s.requests - {key})
    case LoseResponse(key) => s.(responses := s.responses - {key})
    case Serve(key, prepared) => AfterServe(s, key, prepared)
    case Receive(key) => AfterReceive(s, key)
    case BeginDrain => s.(drainOnly := true)
    case Close(client) => AfterSession(s, SessionClosed(client), client, Closed)
  }

  function Run(s: State, steps: seq<Step>): Option<State> {
    if steps == [] then Some(s)
    else
      var before := Run(s, steps[..|steps| - 1]);
      var last := steps[|steps| - 1];
      if before.Some? && Enabled(before.value, last) then Some(Next(before.value, last)) else None
  }

  // ---------- What every packet in flight is ----------

  /** The client still waits under this number. */
  predicate Waits(clients: seq<LoadClient>, key: Key) {
    key.client < |clients| && 1 <= key.sequence <= UINT64_MAX && key.sequence in clients[key.client].outstanding
    && clients[key.client].outstanding[key.sequence].clientSend > 0
  }

  function Asked(clients: seq<LoadClient>, key: Key): Payload
    requires Waits(clients, key)
  {
    var c := clients[key.client];
    RequestPayload(c.clientId, key.sequence, c.outstanding[key.sequence].clientSend)
  }

  predicate IsRequestOf(clients: seq<LoadClient>, key: Key, payload: seq<byte>) {
    Waits(clients, key) && payload == Canonical(Asked(clients, key))
  }

  ghost predicate IsResponseTo(clients: seq<LoadClient>, key: Key, payload: seq<byte>) {
    && Waits(clients, key)
    && exists received: uint64, prepared: uint64 ::
         0 < received <= prepared <= INT64_MAX && payload == Answer(clients, key, received, prepared)
  }

  function Answer(clients: seq<LoadClient>, key: Key, received: uint64, prepared: uint64): seq<byte>
    requires Waits(clients, key)
  {
    Canonical(Asked(clients, key).(serverReceived := received, serverPrepared := prepared))
  }

  ghost predicate RequestsSound(clients: seq<LoadClient>, requests: map<Key, seq<byte>>) {
    forall key | key in requests :: IsRequestOf(clients, key, requests[key])
  }

  ghost predicate ResponsesSound(clients: seq<LoadClient>, responses: map<Key, seq<byte>>) {
    forall key | key in responses :: IsResponseTo(clients, key, responses[key])
  }

  /** No client has used a number it has not reached. */
  ghost predicate NumbersSound(clients: seq<LoadClient>) {
    forall i, k | 0 <= i < |clients| && k in clients[i].outstanding :: 1 <= k < clients[i].nextSequence
  }

  ghost predicate SessionsSound(sessions: seq<Session>, channels: map<SessionKey, Channel>) {
    forall i: nat ::
      && (i in channels <==> i < |sessions| && sessions[i] == Active)
      && (i in channels ==> channels[i] == i)
  }

  ghost predicate Invariant(s: State) {
    && 0 < s.now <= INT64_MAX && |s.sessions| == |s.clients|
    && RequestsSound(s.clients, s.requests) && ResponsesSound(s.clients, s.responses)
    && s.requests.Keys !! s.responses.Keys
    && NumbersSound(s.clients) && (forall i | 0 <= i < |s.clients| :: s.clients[i].nextSequence >= 1)
    && SessionsSound(s.sessions, s.channels)
    && !s.serverFailed && !s.clientFailed
  }

  // ---------- The two sides accept each other ----------

  /** The worker recognises every request a client builds. */
  lemma RequestIsRecognised(p: Payload)
    requires p.protocolVersion == PROTOCOL_VERSION && p.operation == ECHO && p.clientSend > 0
    requires p.serverReceived == 0 && p.serverPrepared == 0
    ensures IsRequest(Canonical(p))
  {
    DecodeOfEncode(p);
  }

  lemma EchoIsAnswer(clients: seq<LoadClient>, key: Key, received: uint64, prepared: uint64)
    requires Waits(clients, key)
    ensures Echo(Canonical(Asked(clients, key)), received, prepared) == Answer(clients, key, received, prepared)
  {
    DecodeOfEncode(Asked(clients, key));
  }

  /** The client accepts every answer the worker gives to a request it still waits for. */
  lemma AnswerIsAccepted(clients: seq<LoadClient>, key: Key, payload: seq<byte>)
    requires IsResponseTo(clients, key, payload)
    ensures Answers(clients[key.client], true, RESPONSE_PACKET_TYPE, payload)
    ensures Fields(payload).sequence == key.sequence
  {
    var received: uint64, prepared: uint64 :|
      0 < received <= prepared <= INT64_MAX && payload == Answer(clients, key, received, prepared);
    DecodeOfEncode(Asked(clients, key).(serverReceived := received, serverPrepared := prepared));
  }

  // ---------- Every step ----------

  lemma SubmitKeeps(s: State, i: nat, scheduledAt: int, recordMeasurement: bool)
    requires Invariant(s) && i < |s.clients| && s.clients[i].nextSequence < UINT64_MAX
    ensures Invariant(AfterSubmit(s, i, scheduledAt, recordMeasurement))
  {
    var s', n := AfterSubmit(s, i, scheduledAt, recordMeasurement), s.clients[i].nextSequence;
    assert n !in s.clients[i].outstanding;
    forall key | Waits(s.clients, key)
      ensures Waits(s'.clients, key) && Asked(s'.clients, key) == Asked(s.clients, key) && key != Key(i, n)
    {
    }
    assert Waits(s'.clients, Key(i, n));
    assert s'.responses == s.responses;
    forall key | key in s'.responses
      ensures IsResponseTo(s'.clients, key, s'.responses[key])
    {
      ResponseCarries(s.clients, s'.clients, key, s.responses[key]);
    }
  }

  lemma ResponseCarries(clients: seq<LoadClient>, clients': seq<LoadClient>, key: Key, payload: seq<byte>)
    requires IsResponseTo(clients, key, payload) && Waits(clients', key)
    requires Asked(clients, key) == Asked(clients', key)
    ensures IsResponseTo(clients', key, payload)
  {
    var received: uint64, prepared: uint64 :|
      0 < received <= prepared <= INT64_MAX && payload == Answer(clients, key, received, prepared);
    assert payload == Answer(clients', key, received, prepared);
  }

  /** The worker does not fail on a request in flight. */
  lemma RequestIsHandled(s: State, key: Key, prepared: int)
    requires Invariant(s) && Enabled(s, Serve(key, prepared))
    ensures Waits(s.clients, key) && |s.requests[key]| == CANONICAL_PAYLOAD_BYTES
    ensures 0 < Timestamp(s.now) == s.now <= prepared == Timestamp(prepared)
    ensures Handles(s.channels, s.drainOnly,
                    PacketReceived(key.client, true, REQUEST_PACKET_TYPE, Some(s.requests[key])), Timestamp(s.now),
                    Timestamp(prepared), true)
    ensures Echo(s.requests[key], Timestamp(s.now), Timestamp(prepared)) == Answer(s.clients, key, s.now, prepared)
  {
    assert IsRequestOf(s.clients, key, s.requests[key]);
    RequestIsRecognised(Asked(s.clients, key));
    EchoIsAnswer(s.clients, key, Timestamp(s.now), Timestamp(prepared));
    assert key.client in s.channels;
  }

  /**
   A request that reaches the worker before the drain is answered with the times it was received and answered at, and
   one that arrives during the drain is not.
   */
  lemma ServeAnswers(s: State, key: Key, prepared: int)
    requires Invariant(s) && Enabled(s, Serve(key, prepared))
    ensures Waits(s.clients, key) && 0 < s.now <= prepared <= INT64_MAX
    ensures Next(s, Serve(key, prepared))
         == s.(requests := s.requests - {key}, now := prepared,
               responses := if s.drainOnly then s.responses
                            else s.responses[key := Answer(s.clients, key, s.now, prepared)])
  {
    RequestIsHandled(s, key, prepared);
  }

  lemma ServeKeeps(s: State, key: Key, prepared: int)
    requires Invariant(s) && Enabled(s, Serve(key, prepared))
    ensures Invariant(AfterServe(s, key, prepared))
  {
    ServeAnswers(s, key, prepared);
    assert IsResponseTo(s.clients, key, Answer(s.clients, key, s.now, prepared));
    var s' := AfterServe(s, key, prepared);
    assert s'.clients == s.clients && s'.channels == s.channels && s'.sessions == s.sessions;
    assert s'.responses.Keys <= s.responses.Keys + {key};
  }

  lemma ReceiveKeeps(s: State, key: Key)
    requires Invariant(s) && Enabled(s, Receive(key))
    ensures Invariant(AfterReceive(s, key))
  {
    AnswerIsAccepted(s.clients, key, s.responses[key]);
    var s' := AfterReceive(s, key);
    forall k | Waits(s.clients, k) && k != key
      ensures Waits(s'.clients, k) && Asked(s'.clients, k) == Asked(s.clients, k)
    {
    }
    forall k | k in s'.responses
      ensures IsResponseTo(s'.clients, k, s'.responses[k])
    {
      ResponseCarries(s.clients, s'.clients, k, s.responses[k]);
    }
    assert key !in s'.requests;
  }

  lemma SessionKeeps(s: State, step: Step)
    requires Invariant(s) && Enabled(s, step) && (step.Accept? || step.Close?)
    ensures Invariant(Next(s, step))
  {
  }

  lemma OtherStepKeeps(s: State, step: Step)
    requires Invariant(s) && Enabled(s, step)
    requires step.Advance? || step.LoseRequest? || step.LoseResponse? || step.BeginDrain?
    ensures Invariant(Next(s, step))
  {
  }

  lemma StepKeeps(s: State, step: Step)
    requires Invariant(s) && Enabled(s, step)
    ensures Invariant(Next(s, step))
  {
    match step
    case Submit(client, scheduledAt, recordMeasurement) => SubmitKeeps(s, client, scheduledAt, recordMeasurement);
    case Serve(key, prepared) => ServeKeeps(s, key, prepared);
    case Receive(key) => ReceiveKeeps(s, key);
    case Accept(_) => SessionKeeps(s, step);
    case Close(_) => SessionKeeps(s, step);
    case _ => OtherStepKeeps(s, step);
  }

  /**
   In every run the echo worker accepts every request the load clients build, and every response that arrives passes the
   client's checks: neither side ever fails the benchmark.
   */
  lemma {:induction false} NeitherSideFails(s: State, steps: seq<Step>)
    requires Initial(s) && Run(s, steps).Some?
    ensures Invariant(Run(s, steps).value)
    ensures !Run(s, steps).value.serverFailed && !Run(s, steps).value.clientFailed
  {
    if steps != [] {
      var earlier := steps[..|steps| - 1];
      NeitherSideFails(s, earlier);
      StepKeeps(Run(s, earlier).value, steps[|steps| - 1]);
    }
  }

  /** An answer that arrives completes the request it answers and no other. */
  lemma ReceiveCompletes(s: State, key: Key)
    requires Invariant(s) && Enabled(s, Receive(key))
    ensures Waits(s.clients, key)
    ensures Next(s, Receive(key))
         == s.(responses := s.responses - {key},
               clients := s.clients[key.client := Without(s.clients[key.client], key.sequence)])
  {
    AnswerIsAccepted(s.clients, key, s.responses[key]);
  }

  /** At-most-once delivery is needed: the client refuses a second copy of an answer it has taken. */
  lemma SecondCopyIsRefused(clients: seq<LoadClient>, key: Key, payload: seq<byte>)
    requires IsResponseTo(clients, key, payload)
    ensures !Answers(Without(clients[key.client], key.sequence), true, RESPONSE_PACKET_TYPE, payload)
  {
    AnswerIsAccepted(clients, key, payload);
  }
}
