/** One load worker: sends on a fixed grid, matches echo responses, and drains what is left. */
module LoadWorker {
  import opened Prelude
  import opened Sums
  import opened BenchmarkProtocol
  import opened LoadReadings
  import opened LoadSchedule

  const ACTIVE_DRAIN_PROBE_BUDGET := 4

  /** What a client's event queue may give. `fieldsRead` is whether the packet's type and payload could be read. */
  datatype ClientEvent = Packet(fieldsRead: bool, packetType: uint16, payload: seq<byte>) | Disconnected | OtherEvent

  datatype ClientPop = Nothing | PopFailed | Popped(event: ClientEvent)

  /** One look at a client's queue, and what it gave. */
  datatype Look = Look(client: nat, pop: ClientPop)

  /** Since `earlier` only the client's queue was looked at, until it was empty. */
  predicate Emptied(looks: seq<Look>, earlier: seq<Look>, client: nat) {
    && |earlier| < |looks| && earlier <= looks && looks[|looks| - 1] == Look(client, Nothing)
    && forall k | |earlier| <= k < |looks| - 1 :: looks[k].client == client && looks[k].pop.Popped?
  }

  /** Since the first `from` looks the client's queue was seen empty. */
  predicate SeenEmpty(looks: seq<Look>, from: nat, client: nat) {
    exists k | from <= k < |looks| :: looks[k] == Look(client, Nothing)
  }

  lemma SeenLater(looks: seq<Look>, later: seq<Look>, from: nat, client: nat)
    requires SeenEmpty(looks, from, client) && looks <= later
    ensures SeenEmpty(later, from, client)
  {
    var k :| from <= k < |looks| && looks[k] == Look(client, Nothing);
    assert later[k] == looks[k];
  }

  /** The looks since `earlier` went to `count` clients in turn, from `first` on. */
  predicate InTurn(looks: seq<Look>, earlier: seq<Look>, first: nat, clientCount: nat, count: nat) {
    && |looks| == |earlier| + count && earlier <= looks
    && forall k: nat | k < count :: looks[|earlier| + k].client == AfterTurns(first, clientCount, k)
  }

  lemma OneMoreInTurn(looks: seq<Look>, before: seq<Look>, earlier: seq<Look>, first: nat, clientCount: nat, count: nat)
    requires InTurn(before, earlier, first, clientCount, count) && before <= looks && |looks| == |before| + 1
    requires looks[|before|].client == AfterTurns(first, clientCount, count)
    ensures InTurn(looks, earlier, first, clientCount, count + 1)
  {
  }

  datatype Outcome = Finished | ClockUnavailable | SendRejected | DrainFailed | DrainTimedOut

  /** A response of the benchmark protocol to this client. */
  predicate IsResponseFor(clientId: uint32, fieldsRead: bool, packetType: uint16, payload: seq<byte>) {
    && fieldsRead && packetType == RESPONSE_PACKET_TYPE && |payload| == CANONICAL_PAYLOAD_BYTES && IsPadded(payload)
    && var r := Fields(payload);
       && r.protocolVersion == PROTOCOL_VERSION && r.operation == ECHO && r.clientId == clientId
       && r.clientSend != 0 && r.serverReceived != 0 && r.serverPrepared >= r.serverReceived
  }

  /** Those are the echoes of the client's own stamped requests, with the server's two times in order. */
  lemma ResponseIff(clientId: uint32, payload: seq<byte>)
    ensures IsResponseFor(clientId, true, 0x7F02, payload) <==>
      exists sequence: uint64, clientSend: uint64, received: uint64, prepared: uint64 ::
        0 < clientSend && 0 < received <= prepared
        && payload == Canonical(Payload(2, 1, clientId, sequence, clientSend, received, prepared))
  {
    if IsResponseFor(clientId, true, 0x7F02, payload) {
      EncodeOfDecode(payload);
      var r := Fields(payload);
      assert payload
          == Canonical(Payload(2, 1, clientId, r.sequence, r.clientSend, r.serverReceived, r.serverPrepared));
    }
    forall sequence: uint64, clientSend: uint64, received: uint64, prepared: uint64 |
      0 < clientSend && 0 < received <= prepared
      && payload == Canonical(Payload(2, 1, clientId, sequence, clientSend, received, prepared))
      ensures IsResponseFor(clientId, true, 0x7F02, payload)
    {
      DecodeOfEncode(Payload(2, 1, clientId, sequence, clientSend, received, prepared));
    }
  }

  /** The decoded response belongs to a request the client waits for. */
  predicate Matches(c: LoadClient, r: Payload) {
    && r.sequence in c.outstanding && r.clientSend == c.outstanding[r.sequence].clientSend
    && (c.outstanding[r.sequence].recordMeasurement ==> r.serverPrepared - r.serverReceived <= INT64_MAX)
  }

  /** The response answers a request the client waits for. */
  predicate Answers(c: LoadClient, fieldsRead: bool, packetType: uint16, payload: seq<byte>) {
    IsResponseFor(c.clientId, fieldsRead, packetType, payload) && Matches(c, Fields(payload))
  }

  /** The checks on a response before it is looked up. */
  method CheckResponse(clientId: uint32, fieldsRead: bool, packetType: uint16, payload: seq<byte>) returns (fits: bool)
    ensures fits <==> IsResponseFor(clientId, fieldsRead, packetType, payload)
  {
    if !fieldsRead || packetType != RESPONSE_PACKET_TYPE || |payload| != CANONICAL_PAYLOAD_BYTES {
      return false;
    }
    var response := Fields(payload);
    if response.protocolVersion != PROTOCOL_VERSION || response.operation != ECHO || response.clientId != clientId
       || response.clientSend == 0 || response.serverReceived == 0
       || response.serverPrepared < response.serverReceived || !IsPadded(payload) {
      return false;
    }
    fits := true;
  }

  /** What a client sends: both server timestamps still zero. */
  function RequestPayload(clientId: uint32, sequence: uint64, clientSend: uint64): Payload {
    Payload(PROTOCOL_VERSION, ECHO, clientId, sequence, clientSend, 0, 0)
  }

  class LoadWorker {
    const plan: Plan
    const drainTimeout: nat
    var clients: seq<LoadClient>
    var tally: Tally
    var localScheduleIndex: nat
    var nextScheduledAt: int
    var nextDrainClientIndex: nat
    /** The steady clock's last reading, and how many readings may still repeat it. */
    var clock: int
    var stalls: nat
    /** Every reading of the clock since the one the worker starts with. */
    ghost var readings: Log
    /** Every request booked, every request the network client took, and the bytes of those. */
    ghost var sends: seq<Send>
    ghost var requests: seq<Payload>
    ghost var packets: seq<seq<byte>>
    /** Every measured request answered. */
    ghost var answers: seq<Answer>
    /** Every look at a client's queue. */
    ghost var looks: seq<Look>

    ghost predicate Valid()
      reads this
    {
      && Sound(plan, clients, sends, tally, localScheduleIndex, nextScheduledAt, Timestamp(clock))
      && nextDrainClientIndex < plan.clientCount && readings.at == clock
      && Recorded(plan, sends, answers, tally)
    }

    /** The client whose turn it is. */
    function NextClient(): LoadClient
      reads this
      requires Valid()
    {
      clients[ClientOfSlot(plan, localScheduleIndex)]
    }

    /** What still holds after a failure. */
    ghost predicate StillAccounted()
      reads this
    {
      Accounted(plan, clients, sends, tally, localScheduleIndex)
    }

    lemma ValidIsAccounted(tally': Tally)
      requires Valid() && tally'.accepted == tally.accepted && tally'.completed == tally.completed
      requires tally'.missedSchedule == tally.missedSchedule
      ensures Accounted(plan, clients, sends, tally', localScheduleIndex)
    {
      SoundIsAccounted(plan, clients, sends, tally, localScheduleIndex, nextScheduledAt, Timestamp(clock), tally');
    }

    constructor (plan: Plan, drainTimeout: nat, firstClientId: uint32, clock: int, stalls: nat)
      requires plan.Valid() && firstClientId + plan.clientCount <= UINT32_MAX
      ensures Valid() && this.plan == plan && sends == [] && requests == [] && packets == []
      ensures answers == [] && looks == [] && tally == EMPTY_TALLY && |clients| == plan.clientCount
      ensures forall i | 0 <= i < plan.clientCount :: clients[i] == LoadClient(firstClientId + i, 1, map[])
      ensures View() == Cursor(0, []) && readings == Begun(clock)
    {
      this.plan, this.drainTimeout, this.clock, this.stalls := plan, drainTimeout, clock, stalls;
      clients := seq(plan.clientCount, i requires 0 <= i < plan.clientCount => LoadClient(firstClientId + i, 1, map[]));
      tally, localScheduleIndex, nextScheduledAt, nextDrainClientIndex := EMPTY_TALLY, 0, plan.start, 0;
      sends, requests, packets, answers, looks, readings := [], [], [], [], [], Begun(clock);
      new;
      SumWhenZero(clients, Pending);
      SumWhenZero(clients, Measuring);
      ClientsFromEach(plan, clients, [], Timestamp(clock), |clients|);
    }

    /**
     The clock only moves forward and repeats a reading finitely often; nothing is read for the send loop's own sake.
     */
    twostate predicate TimePasses()
      reads this
    {
      && old(clock) <= clock && (clock == old(clock) ==> stalls <= old(stalls))
      && Aside(readings, old(readings))
    }

    /** Reads the steady clock: any later reading, or the same one while it may still be repeated. */
    method Now(ghost purpose: Purpose := Otherwise) returns (now: int)
      requires Valid()
      modifies this`clock, this`stalls, this`readings
      ensures now == clock >= old(clock) && (clock == old(clock) ==> stalls < old(stalls))
      ensures readings == Then(old(readings), now, purpose) && (purpose.Otherwise? ==> TimePasses())
      ensures Valid()
    {
      var repeats: bool := *;
      if repeats && stalls > 0 {
        stalls := stalls - 1;
      } else {
        var later :| later > clock;
        ClientsLater(plan, clients, sends, Timestamp(clock), Timestamp(later));
        clock := later;
        stalls := *;
      }
      now := clock;
      OneAside(readings, now);
      readings := Then(readings, now, purpose);
    }

    ghost predicate Keeps(b: Books)
      reads this
    {
      clients == b.clients && tally == b.tally && answers == b.answers
    }

    /** With these books everything would hold that does. */
    ghost predicate Bears(b: Books)
      reads this
    {
      && Sound(plan, b.clients, sends, b.tally, localScheduleIndex, nextScheduledAt, Timestamp(clock))
      && Recorded(plan, sends, b.answers, b.tally)
    }

    lemma BearsCompletion(b: Books, b': Books, i: nat, response: Payload)
      requires Valid() && Keeps(b) && i < |clients| && response.sequence in clients[i].outstanding
      requires response.serverReceived <= response.serverPrepared
      requires b' == AfterCompletion(plan, sends, b, i, response.sequence, response.serverReceived,
                                     response.serverPrepared, clock)
      ensures IsWaiting(plan, sends, b, i, response.sequence) && Bears(b')
      ensures b'.clients == clients[i := Without(clients[i], response.sequence)]
      ensures var request := clients[i].outstanding[response.sequence];
        b'.tally == AfterResponse(tally, request, Timestamp(clock) - request.clientSend,
                                  response.serverPrepared - response.serverReceived)
    {
      CompletionKeeps(plan, sends, b, b', localScheduleIndex, nextScheduledAt, i, response.sequence,
                      response.serverReceived, response.serverPrepared, clock);
    }

    /** Puts changed books in place of the old ones. */
    method Keep(clients: seq<LoadClient>, tally: Tally, ghost b: Books)
      requires Valid() && Bears(b) && b.clients == clients && b.tally == tally
      modifies this`clients, this`tally, this`answers
      ensures Valid() && Keeps(b)
    {
      this.clients, this.tally, this.answers := clients, tally, b.answers;
    }

    /** Takes the answered request off the books. */
    method Complete(i: nat, response: Payload)
      requires Valid() && i < |clients| && response.sequence in clients[i].outstanding
      requires response.serverReceived <= response.serverPrepared
      modifies this`clients, this`tally, this`answers
      ensures Valid()
      ensures IsWaiting(plan, sends, Books(old(clients), old(tally), old(answers)), i, response.sequence)
      ensures Keeps(AfterCompletion(plan, sends, Books(old(clients), old(tally), old(answers)), i, response.sequence,
                                    response.serverReceived, response.serverPrepared, clock))
    {
      ghost var before := Books(clients, tally, answers);
      ghost var after := AfterCompletion(plan, sends, before, i, response.sequence, response.serverReceived,
                                         response.serverPrepared, clock);
      BearsCompletion(before, after, i, response);
      var request := clients[i].outstanding[response.sequence];
      Keep(clients[i := Without(clients[i], response.sequence)],
           AfterResponse(tally, request, Timestamp(clock) - request.clientSend,
                         response.serverPrepared - response.serverReceived), after);
    }

    /** Looks a decoded response up and completes the request it belongs to. */
    method Match(i: nat, response: Payload) returns (ok: bool)
      requires Valid() && i < |clients| && response.serverReceived <= response.serverPrepared
      modifies this`clients, this`tally, this`answers, this`clock, this`stalls, this`readings
      ensures ok <==> Matches(old(clients[i]), response)
      ensures ok ==> Valid()
      ensures ok ==>
        && IsWaiting(plan, sends, Books(old(clients), old(tally), old(answers)), i, response.sequence)
        && Keeps(AfterCompletion(plan, sends, Books(old(clients), old(tally), old(answers)), i, response.sequence,
                                    response.serverReceived, response.serverPrepared, clock))
      ensures !ok ==> StillAccounted() && clients == old(clients)
      ensures !ok ==> tally == old(tally).(schedulerLag := tally.schedulerLag)
      ensures TimePasses()
    {
      ok := false;
      ValidIsAccounted(tally);
      var client := clients[i];
      if response.sequence !in client.outstanding {
        return;
      }
      var now := Now();
      ClientAt(plan, clients, sends, Timestamp(clock), |clients|, i);
      var request := client.outstanding[response.sequence];
      if response.clientSend != request.clientSend {
        return;
      }
      if request.recordMeasurement {
        var roundTrip := Timestamp(now) - request.clientSend;
        var processing := response.serverPrepared - response.serverReceived;
        if roundTrip < 0 || roundTrip > INT64_MAX || processing > INT64_MAX {
          ValidIsAccounted(tally.(schedulerLag := tally.schedulerLag + [request.submittedAt - request.scheduledAt]));
          tally := tally.(schedulerLag := tally.schedulerLag + [request.submittedAt - request.scheduledAt]);
          return;
        }
      }
      Complete(i, response);
      ok := true;
    }

    /**
     Accepts a response exactly when it answers a waiting request, which it then completes; a measured one leaves the
     time since its stamp, the server's own time, and how late it was submitted.
     */
    method CompleteResponse(i: nat, fieldsRead: bool, packetType: uint16, payload: seq<byte>) returns (ok: bool)
      requires Valid() && i < |clients|
      modifies this`clients, this`tally, this`answers, this`clock, this`stalls, this`readings
      ensures ok <==> Answers(old(clients[i]), fieldsRead, packetType, payload)
      ensures ok ==> Valid() && Sum(clients, Pending) == old(Sum(clients, Pending)) - 1
      ensures ok ==> clients == old(clients)[i := Without(old(clients[i]), Fields(payload).sequence)]
      ensures ok ==> var response := Fields(payload); var request := old(clients[i]).outstanding[response.sequence];
        Gains(old(tally), tally, request.recordMeasurement, Timestamp(clock) - response.clientSend,
              response.serverPrepared - response.serverReceived, request.submittedAt - request.scheduledAt)
      ensures ok ==> var response := Fields(payload); var request := old(clients[i]).outstanding[response.sequence];
        Notes(plan, old(answers), answers, request.recordMeasurement, i, response.sequence, response.serverReceived,
              response.serverPrepared, clock)
      ensures !ok ==> StillAccounted() && clients == old(clients)
      ensures !ok ==> tally == old(tally).(schedulerLag := tally.schedulerLag)
      ensures TimePasses()
    {
      ValidIsAccounted(tally);
      ok := CheckResponse(clients[i].clientId, fieldsRead, packetType, payload);
      if ok {
        ghost var before, response := Books(clients, tally, answers), Fields(payload);
        ok := Match(i, Fields(payload));
        if ok {
          CompletionGains(plan, sends, before, i, response.sequence, response.serverReceived, response.serverPrepared,
                          clock);
        }
      }
    }

    /** Takes one event off a client's queue; `pop` is what the queue gives. */
    method TryDrainClientEvent(i: nat) returns (ok: bool, pop: ClientPop)
      requires Valid() && i < |clients|
      modifies this`clients, this`tally, this`answers, this`looks, this`clock, this`stalls, this`readings
      ensures ok <==> pop.Nothing? || (pop.Popped? && pop.event.Packet? && Answers(
                                        old(clients[i]), pop.event.fieldsRead, pop.event.packetType, pop.event.payload))
      ensures ok ==> Valid() && Sum(clients, Pending) == old(Sum(clients, Pending)) - (if pop.Popped? then 1 else 0)
      ensures pop.Nothing? || pop.PopFailed? ==> tally == old(tally) && clients == old(clients)
      ensures pop == Popped(Disconnected) ==>
        tally == old(tally).(unexpectedDisconnect := old(tally.unexpectedDisconnect) + 1) && clients == old(clients)
      ensures !ok ==> StillAccounted()
      ensures looks == old(looks) + [Look(i, pop)]
      ensures TimePasses()
    {
      pop := *;
      looks := looks + [Look(i, pop)];
      ValidIsAccounted(tally);
      ValidIsAccounted(tally.(unexpectedDisconnect := tally.unexpectedDisconnect + 1));
      match pop {
        case PopFailed =>
          ok := false;
        case Nothing =>
          ok := true;
        case Popped(Disconnected) =>
          tally := tally.(unexpectedDisconnect := tally.unexpectedDisconnect + 1);
          ok := false;
        case Popped(OtherEvent) =>
          ok := false;
        case Popped(Packet(fieldsRead, packetType, payload)) =>
          ok := CompleteResponse(i, fieldsRead, packetType, payload);
      }
    }

    /** Empties a client's queue: each event handled completes a request, so there is an end. */
    method DrainClientEvents(i: nat) returns (ok: bool)
      requires Valid() && i < |clients|
      modifies this`clients, this`tally, this`answers, this`looks, this`clock, this`stalls, this`readings
      ensures ok ==> Valid()
      ensures ok ==> Emptied(looks, old(looks), i)
      ensures !ok ==> StillAccounted()
      ensures TimePasses()
    {
      var eventPopped := true;
      while eventPopped
        invariant Valid() && i < |clients| && TimePasses()
        invariant old(looks) <= looks
        invariant forall k | |old(looks)| <= k < |looks| - (if eventPopped then 0 else 1) ::
          looks[k].client == i && looks[k].pop.Popped?
        invariant !eventPopped ==> |looks| > |old(looks)| && looks[|looks| - 1] == Look(i, Nothing)
        decreases Sum(clients, Pending) + (if eventPopped then 1 else 0)
      {
        SumsNonNegative(clients);
        ghost var before := readings;
        var pop;
        ok, pop := TryDrainClientEvent(i);
        AsideFurther(readings, before, old(readings));
        if !ok {
          return false;
        }
        eventPopped := pop.Popped?;
        SumsNonNegative(clients);
      }
      ok := true;
    }

    /** Passes over the slots that are a whole interval late, counting them as missed. */
    method SkipMissed(observedAt: int)
      requires Valid() && nextScheduledAt <= observedAt
      modifies this`tally, this`localScheduleIndex, this`nextScheduledAt
      ensures Valid()
      ensures localScheduleIndex == DueSlot(plan, old(localScheduleIndex), observedAt)
      ensures tally == old(tally).(missedSchedule := tally.missedSchedule)
      ensures nextScheduledAt <= observedAt < nextScheduledAt + plan.interval
    {
      var missedIntervals := (observedAt - nextScheduledAt) / plan.interval;
      SkipKeepsSound(plan, clients, sends, tally, localScheduleIndex, nextScheduledAt, Timestamp(clock), observedAt);
      if missedIntervals > 0 {
        tally := tally.(missedSchedule := tally.missedSchedule + missedIntervals);
        localScheduleIndex := localScheduleIndex + missedIntervals;
        nextScheduledAt := nextScheduledAt + plan.interval * missedIntervals;
      }
    }

    /** Books a request the network client took. */
    method Book(ghost send: Send, waiting: Outstanding)
      requires Valid() && send.slot == localScheduleIndex && OnTime(plan, send.slot, send.observedAt) && InOrder(send)
      requires send.sequence == NextClient().nextSequence && IsBooked(plan, send, waiting)
      requires 0 < waiting.clientSend <= Timestamp(clock)
      requires waiting.recordMeasurement <==> waiting.scheduledAt >= plan.measurementBegin
      modifies this`clients, this`tally, this`localScheduleIndex, this`nextScheduledAt, this`sends
      ensures Valid() && tally == old(tally).(accepted := old(tally.accepted) + 1)
      ensures localScheduleIndex == old(localScheduleIndex) + 1
      ensures old(NextClient()).nextSequence !in old(NextClient()).outstanding
      ensures IsAppended(sends, old(sends), send)
    {
      var i := localScheduleIndex % plan.clientCount;
      RemainderIsTurn(plan.clientCount, localScheduleIndex);
      SendKeepsSound(plan, clients, sends, tally, localScheduleIndex, nextScheduledAt, Timestamp(clock), send, waiting);
      SendKeepsRecorded(plan, sends, answers, tally, send, tally.(accepted := tally.accepted + 1));
      if clients[i].nextSequence in clients[i].outstanding {
        assert false;
      }
      Advance(send, clients[i := AfterSend(clients[i], waiting)], tally.(accepted := tally.accepted + 1));
    }

    /** Goes on to the next slot with the request booked. */
    method Advance(ghost send: Send, clients: seq<LoadClient>, tally: Tally)
      requires Valid()
      requires Sound(plan, clients, sends + [send], tally, localScheduleIndex + 1, nextScheduledAt + plan.interval,
                     Timestamp(clock))
      requires Recorded(plan, sends + [send], answers, tally)
      modifies this`clients, this`tally, this`localScheduleIndex, this`nextScheduledAt, this`sends
      ensures Valid() && this.clients == clients && this.tally == tally && sends == old(sends) + [send]
      ensures localScheduleIndex == old(localScheduleIndex) + 1
      ensures nextScheduledAt == old(nextScheduledAt) + plan.interval
    {
      sends, this.clients, this.tally, localScheduleIndex, nextScheduledAt :=
        sends + [send], clients, tally, localScheduleIndex + 1, nextScheduledAt + plan.interval;
    }

    /** Hands the canonical bytes of a request to the network client, which may refuse them. */
    method Transmit(request: Payload) returns (taken: bool)
      modifies this`requests, this`packets
      ensures requests == if taken then old(requests) + [request] else old(requests)
      ensures packets == if taken then old(packets) + [Canonical(request)] else old(packets)
    {
      var bytes := EncodeCanonical(request);
      taken := *;
      if taken {
        requests, packets := requests + [request], packets + [bytes[..]];
      }
    }

    /** Stamps a request of a client and sends it. */
    method Submit(client: LoadClient) returns (outcome: Outcome, stampedAt: int, submittedAt: int)
      requires Valid()
      modifies this`tally, this`clock, this`stalls, this`readings, this`requests, this`packets
      ensures outcome == Finished || outcome == ClockUnavailable || outcome == SendRejected
      ensures outcome == Finished ==> Valid() && tally == old(tally)
      ensures outcome == Finished ==> old(clock) <= stampedAt <= submittedAt == clock && Timestamp(stampedAt) > 0
      ensures outcome != Finished ==> StillAccounted()
      ensures outcome == ClockUnavailable ==> tally == old(tally) && Timestamp(stampedAt) == 0
      ensures outcome == SendRejected ==> tally == old(tally).(sendRejected := old(tally.sendRejected) + 1)
      ensures outcome != Finished ==> requests == old(requests)
      ensures outcome == Finished ==> IsAppended(
        requests, old(requests), RequestPayload(client.clientId, client.nextSequence, Timestamp(stampedAt)))
      ensures TimePasses()
    {
      stampedAt := Now();
      submittedAt := stampedAt;
      ValidIsAccounted(tally);
      ValidIsAccounted(tally.(sendRejected := tally.sendRejected + 1));
      if Timestamp(stampedAt) == 0 {
        return ClockUnavailable, stampedAt, submittedAt;
      }
      var taken := Transmit(RequestPayload(client.clientId, client.nextSequence, Timestamp(stampedAt)));
      if !taken {
        tally := tally.(sendRejected := tally.sendRejected + 1);
        return SendRejected, stampedAt, submittedAt;
      }
      ghost var stamped := readings;
      submittedAt := Now();
      AsideFurther(readings, stamped, old(readings));
      outcome := Finished;
    }

    /** Fills the next slot with a request of the client whose turn it is. */
    method SendNext(observedAt: int) returns (outcome: Outcome)
      requires Valid() && observedAt <= clock && OnTime(plan, localScheduleIndex, observedAt)
      modifies this`clients, this`tally, this`localScheduleIndex, this`nextScheduledAt
      modifies this`clock, this`stalls, this`readings, this`sends, this`requests, this`packets
      ensures outcome == Finished || outcome == ClockUnavailable || outcome == SendRejected
      ensures outcome == Finished ==> Valid() && localScheduleIndex == old(localScheduleIndex) + 1
      ensures outcome != Finished ==> StillAccounted()
      ensures outcome != Finished ==> sends == old(sends)
      ensures outcome == Finished ==> sends != []
      ensures outcome == Finished ==> var send := sends[|sends| - 1];
        && IsAppended(sends, old(sends), Send(old(localScheduleIndex), old(NextClient()).nextSequence, observedAt,
                                              send.stampedAt, send.submittedAt))
        && old(clock) <= send.stampedAt <= send.submittedAt == clock
        && IsAppended(requests, old(requests), RequestPayload(
             old(NextClient()).clientId, old(NextClient()).nextSequence, Timestamp(send.stampedAt)))
      ensures TimePasses()
    {
      var stampedAt, submittedAt;
      outcome, stampedAt, submittedAt := Submit(NextClient());
      if outcome == Finished {
        ghost var send := Send(localScheduleIndex, NextClient().nextSequence, observedAt, stampedAt, submittedAt);
        Book(send, Outstanding(nextScheduledAt, submittedAt, Timestamp(stampedAt),
                               nextScheduledAt >= plan.measurementBegin));
      }
    }

    /** Looks at the queue of the client whose turn it is and passes the turn on, unless the next slot is due. */
    method ProbeNext() returns (ok: bool, due: bool)
      requires Valid()
      modifies this`clients, this`tally, this`answers, this`nextDrainClientIndex, this`looks
      modifies this`clock, this`stalls, this`readings
      ensures ok ==> Valid()
      ensures ok && due ==> clock >= nextScheduledAt && nextDrainClientIndex == old(nextDrainClientIndex)
      ensures ok && !due ==> nextDrainClientIndex == AfterTurns(old(nextDrainClientIndex), plan.clientCount, 1)
      ensures ok && due ==> looks == old(looks)
      ensures ok && !due ==> |looks| == |old(looks)| + 1 && old(looks) <= looks
      ensures ok && !due ==> looks[|old(looks)|].client == old(nextDrainClientIndex)
      ensures !ok ==> StillAccounted()
      ensures TimePasses()
    {
      var now := Now();
      due := now >= nextScheduledAt;
      ok := true;
      if !due {
        ghost var looked := readings;
        var pop;
        ok, pop := TryDrainClientEvent(nextDrainClientIndex);
        AsideFurther(readings, looked, old(readings));
        if ok {
          nextDrainClientIndex := nextDrainClientIndex + 1;
          if nextDrainClientIndex == plan.clientCount {
            nextDrainClientIndex := 0;
          }
        }
      }
    }

    /** Looks at the queues of a few clients in turn, stopping early only when the next slot is due. */
    method ProbeClients() returns (ok: bool, probes: nat)
      requires Valid()
      modifies this`clients, this`tally, this`answers, this`nextDrainClientIndex, this`looks
      modifies this`clock, this`stalls, this`readings
      ensures ok ==> Valid()
      ensures ok ==> probes <= ACTIVE_DRAIN_PROBE_BUDGET
      ensures ok ==> nextDrainClientIndex == AfterTurns(old(nextDrainClientIndex), plan.clientCount, probes)
      ensures ok ==> InTurn(looks, old(looks), old(nextDrainClientIndex), plan.clientCount, probes)
      ensures ok && probes < ACTIVE_DRAIN_PROBE_BUDGET ==> clock >= nextScheduledAt
      ensures !ok ==> StillAccounted()
      ensures TimePasses()
    {
      probes := 0;
      var due := false;
      while probes < ACTIVE_DRAIN_PROBE_BUDGET && !due
        invariant Valid() && TimePasses() && probes <= ACTIVE_DRAIN_PROBE_BUDGET
        invariant nextDrainClientIndex == AfterTurns(old(nextDrainClientIndex), plan.clientCount, probes)
        invariant InTurn(looks, old(looks), old(nextDrainClientIndex), plan.clientCount, probes)
        invariant due ==> clock >= nextScheduledAt
        decreases ACTIVE_DRAIN_PROBE_BUDGET - probes, !due
      {
        ghost var before, seen := readings, looks;
        ok, due := ProbeNext();
        AsideFurther(readings, before, old(readings));
        if !ok {
          return;
        }
        if !due {
          OneMoreInTurn(looks, seen, old(looks), old(nextDrainClientIndex), plan.clientCount, probes);
          probes := probes + 1;
        }
      }
      ok := true;
    }

    method OutstandingRequestCount() returns (count: nat)
      ensures count == Sum(clients, Pending)
    {
      count := 0;
      for clientIndex := 0 to |clients|
        invariant count == SumTo(clients, clientIndex, Pending)
      {
        count := count + |clients[clientIndex].outstanding|;
      }
    }

    /** Empties every client's queue once. */
    method DrainClients() returns (ok: bool)
      requires Valid()
      modifies this`clients, this`tally, this`answers, this`looks, this`clock, this`stalls, this`readings
      ensures ok ==> Valid()
      ensures ok ==> forall c: nat | c < plan.clientCount :: SeenEmpty(looks, |old(looks)|, c)
      ensures !ok ==> StillAccounted()
      ensures TimePasses()
    {
      for clientIndex := 0 to |clients|
        invariant Valid() && TimePasses() && old(looks) <= looks
        invariant forall c: nat | c < clientIndex :: SeenEmpty(looks, |old(looks)|, c)
      {
        ghost var before, seen := readings, looks;
        ok := DrainClientEvents(clientIndex);
        AsideFurther(readings, before, old(readings));
        if !ok {
          return;
        }
        forall c: nat | c < clientIndex
          ensures SeenEmpty(looks, |old(looks)|, c)
        {
          SeenLater(seen, looks, |old(looks)|, c);
        }
      }
      ok := true;
    }

    /** Empties the queues again and again until nothing waits or the deadline has come. */
    method DrainUntil(drainDeadline: int) returns (ok: bool, remaining: nat)
      requires Valid()
      modifies this`clients, this`tally, this`answers, this`looks, this`clock, this`stalls, this`readings
      ensures ok ==> Valid() && remaining == Sum(clients, Pending) && (remaining != 0 ==> clock >= drainDeadline)
      ensures !ok ==> StillAccounted()
      ensures TimePasses()
    {
      remaining := OutstandingRequestCount();
      while remaining != 0
        invariant Valid() && TimePasses() && remaining == Sum(clients, Pending)
        decreases drainDeadline - clock, stalls
      {
        ghost var before := readings;
        var now := Now();
        ghost var looked := readings;
        AsideFurther(looked, before, old(readings));
        if now >= drainDeadline {
          break;
        }
        ok := DrainClients();
        AsideFurther(readings, looked, old(readings));
        if !ok {
          return;
        }
        remaining := OutstandingRequestCount();
      }
      ok := true;
    }

    /** Waits for the requests still outstanding, up to a deadline. */
    method Drain() returns (outcome: Outcome)
      requires Valid()
      modifies this`clients, this`tally, this`answers, this`looks, this`clock, this`stalls, this`readings
      ensures outcome == Finished || outcome == DrainFailed || outcome == DrainTimedOut
      ensures outcome == Finished ==> Valid() && tally.accepted == tally.completed
      ensures outcome == DrainTimedOut ==>
        tally.timeout == tally.accepted - tally.completed > 0 && clock >= old(clock) + drainTimeout
      ensures outcome != DrainFailed ==> Recorded(plan, sends, answers, tally)
      ensures outcome != Finished ==> StillAccounted()
      ensures TimePasses()
    {
      var begun := Now();
      ghost var before := readings;
      var ok, remaining := DrainUntil(begun + drainTimeout);
      AsideFurther(readings, before, old(readings));
      if !ok {
        return DrainFailed;
      }
      SumsNonNegative(clients);
      if remaining != 0 {
        ValidIsAccounted(tally.(timeout := remaining));
        tally := tally.(timeout := remaining);
        return DrainTimedOut;
      }
      outcome := Finished;
    }

    /** Where the schedule stands. */
    ghost function View(): Cursor
      reads this
    {
      Cursor(localScheduleIndex, Fills(sends))
    }

    /** Skips what is missed and fills the slot due; None when no slot is left. */
    method FillSlotDue(observedAt: int) returns (outcome: Option<Outcome>)
      requires Valid() && nextScheduledAt <= observedAt <= clock
      modifies this
      ensures outcome.None? || outcome == Some(Finished) ==>
        Valid() && View() == AfterLook(plan, old(View()), observedAt)
      ensures outcome.None? ==> nextScheduledAt >= plan.measurementEnd
      ensures outcome != Some(DrainFailed) && outcome != Some(DrainTimedOut)
      ensures outcome.Some? && outcome.value != Finished ==> StillAccounted()
      ensures looks == old(looks) && nextDrainClientIndex == old(nextDrainClientIndex)
      ensures TimePasses()
    {
      LookDecides(plan, View(), observedAt);
      SkipMissed(observedAt);
      if nextScheduledAt >= plan.measurementEnd {
        return None;
      }
      var sent := SendNext(observedAt);
      outcome := Some(sent);
    }

    /** One slot due: fill it, then look for responses. */
    method Tick(observedAt: int) returns (outcome: Option<Outcome>)
      requires Valid() && nextScheduledAt <= observedAt <= clock
      modifies this
      ensures outcome.None? || outcome == Some(Finished) ==> Valid()
      ensures outcome.None? ==> nextScheduledAt >= plan.measurementEnd
      ensures outcome.None? || outcome == Some(Finished) || outcome == Some(DrainFailed) ==>
        View() == AfterLook(plan, old(View()), observedAt)
      ensures outcome != Some(DrainTimedOut)
      ensures outcome.Some? && outcome.value != Finished ==> StillAccounted()
      ensures outcome == Some(Finished) ==> |old(looks)| <= |looks| <= |old(looks)| + 4
      ensures outcome == Some(Finished) ==> |looks| == |old(looks)| + 4 || clock >= nextScheduledAt
      ensures outcome == Some(Finished) ==> InTurn(
        looks, old(looks), old(nextDrainClientIndex), plan.clientCount, |looks| - |old(looks)|)
      ensures TimePasses()
    {
      outcome := FillSlotDue(observedAt);
      if outcome == Some(Finished) {
        ghost var filled := readings;
        var ok, _ := ProbeClients();
        AsideFurther(readings, filled, old(readings));
        outcome := Some(if ok then Finished else DrainFailed);
      }
    }

    /** One turn of the send loop, whose head saw a moment before the end; None when no slot is left. */
    method PlayTurn() returns (outcome: Option<Outcome>, ghost looked: Log)
      requires Valid() && LetPass(plan, readings)
      modifies this
      ensures outcome.None? || outcome == Some(Finished) ==>
        Valid() && View() == AfterLook(plan, old(View()), looked.at)
      ensures outcome.None? ==> nextScheduledAt >= plan.measurementEnd
      ensures outcome != Some(DrainTimedOut)
      ensures outcome.Some? && outcome.value != Finished ==> StillAccounted()
      ensures looked == Then(old(readings), looked.at, ToFill) && old(clock) <= looked.at && Aside(readings, looked)
      ensures old(clock) <= clock && (clock == old(clock) ==> stalls < old(stalls))
    {
      var observedAt := Now(ToFill);
      looked := readings;
      if observedAt < nextScheduledAt {
        outcome := Some(Finished);
      } else {
        outcome := Tick(observedAt);
      }
    }

    /** Sends until the measurement ends or no slot is left; the schedule goes where the clock readings take it. */
    method SendUntilEnd() returns (outcome: Outcome)
      requires Valid()
      modifies this
      ensures outcome != DrainTimedOut
      ensures outcome == Finished ==> clock >= plan.measurementEnd || nextScheduledAt >= plan.measurementEnd
      ensures outcome == Finished ==> Valid() && Grown(plan, readings, old(readings))
      ensures outcome == Finished ==> View() == Scheduled(plan, old(View()), readings, old(readings))
      ensures outcome != Finished ==> StillAccounted()
    {
      ghost var start, begun := View(), readings;
      var now := Now(AtHead);
      OneMore(plan, start, begun, begun, now, AtHead);
      while now < plan.measurementEnd
        invariant Valid() && now == clock && readings.Then? && readings.purpose.AtHead?
        invariant Grown(plan, readings, begun) && View() == Scheduled(plan, start, readings, begun)
        decreases plan.measurementEnd - now, stalls
      {
        ghost var head, looked := readings, readings;
        var played;
        played, looked := PlayTurn();
        OneMore(plan, start, head, begun, looked.at, ToFill);
        AsideChangesNothing(plan, start, readings, looked, begun);
        if played.None? {
          return Finished;
        }
        if played.value != Finished {
          return played.value;
        }
        ghost var turned := readings;
        now := Now(AtHead);
        OneMore(plan, start, turned, begun, now, AtHead);
      }
      outcome := Finished;
    }

    /**
     The worker's whole run: it ends, every request sent on the way is accounted for, and the schedule is what the clock
     readings make it.
     */
    method Run() returns (outcome: Outcome)
      requires Valid()
      modifies this
      ensures StillAccounted()
      ensures outcome == Finished ==> Valid() && Settled(plan, sends, tally)
      ensures outcome == Finished || outcome == DrainTimedOut ==>
        && Grown(plan, readings, old(readings))
        && View() == Scheduled(plan, old(View()), readings, old(readings))
      ensures (outcome == Finished || outcome == DrainTimedOut) && old(View()) == Cursor(0, []) ==>
        (tally.accepted + tally.missedSchedule == SlotsInPlan(plan)
         <==> match LastLook(readings, old(readings))
              case None => SlotsInPlan(plan) == 0
              case Some(observedAt) => EndsInPlan(plan, observedAt))
      ensures outcome == DrainTimedOut ==> tally.timeout == tally.accepted - tally.completed > 0
      ensures outcome == Finished || outcome == DrainTimedOut ==> Recorded(plan, sends, answers, tally)
    {
      outcome := SendUntilEnd();
      if outcome != Finished {
        return;
      }
      ghost var sent := readings;
      outcome := Drain();
      AsideChangesNothing(plan, old(View()), readings, sent, old(readings));
      if outcome == Finished {
        ValidIsAccounted(tally);
        AllMeasuredSampled(plan, clients, sends, tally);
      }
      if old(View()) == Cursor(0, []) && outcome != DrainFailed {
        AccountedIff(plan, clients, sends, tally, localScheduleIndex, readings, old(readings));
      }
    }
  }
}
