/** The server's echo worker: sessions come and go, and every well-formed request is answered once. */
module EchoServer {
  import opened Prelude
  import opened BenchmarkProtocol

  type SessionKey = nat
  type Channel = nat

  /** What the runtime's queue to the world may hold; a missing channel or unread fields are failed accessor calls. */
  datatype Event =
    | SessionAccepted(session: SessionKey, channel: Option<Channel>)
    | SessionClosed(session: SessionKey)
    | PacketReceived(session: SessionKey, fieldsRead: bool, packetType: uint16, payload: Option<seq<byte>>)
    | Unsupported
    | Invalid

  datatype Failure =
    | InvalidEvent | UnreadableChannel | DuplicateSession | ClosedBeforeAccepted | UnsupportedKind | NoTimestamp
    | UnreadableFields | NoSession | WrongPacketType | WrongShape | WrongProtocol | ClockWentBack | SubmitFailed
    | PopFailed

  datatype Sent = Sent(channel: Channel, packetType: uint16, payload: seq<byte>)

  /** A request of the benchmark protocol: the server's timestamps are still zero. */
  predicate IsRequest(payload: seq<byte>) {
    && |payload| == CANONICAL_PAYLOAD_BYTES && IsPadded(payload)
    && var r := Fields(payload);
       && r.protocolVersion == PROTOCOL_VERSION && r.operation == ECHO && r.clientSend != 0
       && r.serverReceived == 0 && r.serverPrepared == 0
  }

  /** The answer to a request: the same fields with the server's timestamps. */
  function Echo(payload: seq<byte>, received: uint64, prepared: uint64): seq<byte>
    requires |payload| == CANONICAL_PAYLOAD_BYTES
  {
    Canonical(Fields(payload).(serverReceived := received, serverPrepared := prepared))
  }

  /** The events the worker handles without failing. A draining worker ignores packets, whatever they hold. */
  predicate Handles(channels: map<SessionKey, Channel>, drainOnly: bool, event: Event, received: uint64,
                    prepared: uint64, taken: bool)
  {
    match event
    case SessionAccepted(session, channel) => channel.Some? && session !in channels
    case SessionClosed(session) => session in channels
    case PacketReceived(session, fieldsRead, packetType, payload) =>
      drainOnly || (
        && fieldsRead && session in channels && packetType == REQUEST_PACKET_TYPE
        && payload.Some? && IsRequest(payload.value)
        && 0 < received <= prepared && taken)
    case _ => false
  }

  /** A failure tells the truth about the event it was recorded for. */
  predicate Explains(failure: Failure, channels: map<SessionKey, Channel>, event: Event, received: uint64,
                     prepared: uint64, taken: bool)
  {
    match failure
    case InvalidEvent => event.Invalid?
    case UnsupportedKind => event.Unsupported?
    case UnreadableChannel => event.SessionAccepted? && event.channel.None?
    case DuplicateSession => event.SessionAccepted? && event.session in channels
    case ClosedBeforeAccepted => event.SessionClosed? && event.session !in channels
    case NoTimestamp => event.PacketReceived? && received == 0
    case UnreadableFields => event.PacketReceived? && !event.fieldsRead
    case NoSession => event.PacketReceived? && event.session !in channels
    case WrongPacketType => event.PacketReceived? && event.packetType != REQUEST_PACKET_TYPE
    case WrongShape =>
      event.PacketReceived? && (event.payload.None? || |event.payload.value| != CANONICAL_PAYLOAD_BYTES)
    case WrongProtocol => event.PacketReceived? && event.payload.Some? && !IsRequest(event.payload.value)
    case ClockWentBack => event.PacketReceived? && prepared < received
    case SubmitFailed => event.PacketReceived? && !taken
    case PopFailed => false
  }

  function ChannelsAfter(channels: map<SessionKey, Channel>, event: Event): map<SessionKey, Channel> {
    match event
    case SessionAccepted(session, Some(channel)) => channels[session := channel]
    case SessionClosed(session) => channels - {session}
    case _ => channels
  }

  class EchoWorker {
    var activeSendChannels: map<SessionKey, Channel>
    var drainOnly: bool
    var stopAfterDrain: bool
    /** The first failure recorded; later ones do not replace it. */
    var failure: Option<Failure>
    /** What the gateway took. */
    ghost var sent: seq<Sent>

    ghost function View(): Work
      reads this
    {
      Work(activeSendChannels, drainOnly, sent)
    }

    constructor ()
      ensures activeSendChannels == map[] && !drainOnly && !stopAfterDrain && failure.None? && sent == []
    {
      activeSendChannels, drainOnly, stopAfterDrain, failure, sent := map[], false, false, None, [];
    }

    method BeginDrainOnly()
      modifies this`drainOnly
      ensures drainOnly
    {
      drainOnly := true;
    }

    method RecordFailure(error: Failure)
      modifies this`failure
      ensures failure == if old(failure).Some? then old(failure) else Some(error)
    {
      if failure.None? {
        failure := Some(error);
      }
    }

    method Fail(error: Failure) returns (ok: bool)
      modifies this`failure
      ensures !ok && failure == if old(failure).Some? then old(failure) else Some(error)
    {
      RecordFailure(error);
      ok := false;
    }

    /**
     `received` and `prepared` are the two clock readings, 0 for a clock that could not be read; `taken` is whether the
     gateway takes the answer.
     */
    method ProcessEvent(event: Event, received: uint64, prepared: uint64, taken: bool) returns (ok: bool)
      modifies this`activeSendChannels, this`failure, this`sent
      ensures ok <==> Handles(old(activeSendChannels), drainOnly, event, received, prepared, taken)
      ensures ok ==> failure == old(failure)
      ensures !ok ==> failure.Some? && (old(failure).Some? ==> failure == old(failure))
      ensures !ok && old(failure).None? ==>
        Explains(failure.value, old(activeSendChannels), event, received, prepared, taken)
      ensures activeSendChannels
           == if ok then ChannelsAfter(old(activeSendChannels), event) else old(activeSendChannels)
      ensures sent == if !ok || drainOnly || !event.PacketReceived? then old(sent) else
                        old(sent) + [Sent(old(activeSendChannels)[event.session], RESPONSE_PACKET_TYPE,
                                          Echo(event.payload.value, received, prepared))]
    {
      match event {
        case Invalid =>
          ok := Fail(InvalidEvent);
        case Unsupported =>
          ok := Fail(UnsupportedKind);
        case SessionAccepted(session, channel) =>
          if channel.None? {
            ok := Fail(UnreadableChannel);
          } else if session in activeSendChannels {
            ok := Fail(DuplicateSession);
          } else {
            activeSendChannels := activeSendChannels[session := channel.value];
            ok := true;
          }
        case SessionClosed(session) =>
          if session !in activeSendChannels {
            ok := Fail(ClosedBeforeAccepted);
          } else {
            activeSendChannels := activeSendChannels - {session};
            ok := true;
          }
        case PacketReceived(_, _, _, _) =>
          if drainOnly {
            ok := true;
          } else {
            ok := ProcessPacket(event, received, prepared, taken);
          }
      }
    }

    method ProcessPacket(event: Event, received: uint64, prepared: uint64, taken: bool) returns (ok: bool)
      requires event.PacketReceived? && !drainOnly
      modifies this`failure, this`sent
      ensures ok <==> Handles(activeSendChannels, false, event, received, prepared, taken)
      ensures ok ==> failure == old(failure)
      ensures !ok ==> failure.Some? && (old(failure).Some? ==> failure == old(failure))
      ensures !ok && old(failure).None? ==>
        Explains(failure.value, activeSendChannels, event, received, prepared, taken)
      ensures sent == if !ok then old(sent) else
                        old(sent) + [Sent(activeSendChannels[event.session], RESPONSE_PACKET_TYPE,
                                          Echo(event.payload.value, received, prepared))]
    {
      if received == 0 {
        ok := Fail(NoTimestamp);
        return;
      }
      if !event.fieldsRead {
        ok := Fail(UnreadableFields);
        return;
      }
      if event.session !in activeSendChannels {
        ok := Fail(NoSession);
        return;
      }
      if event.packetType != REQUEST_PACKET_TYPE {
        ok := Fail(WrongPacketType);
        return;
      }
      if event.payload.None? || |event.payload.value| != CANONICAL_PAYLOAD_BYTES {
        ok := Fail(WrongShape);
        return;
      }
      var request := Fields(event.payload.value);
      if request.protocolVersion != PROTOCOL_VERSION || request.operation != ECHO || request.clientSend == 0
         || request.serverReceived != 0 || request.serverPrepared != 0 || !IsPadded(event.payload.value) {
        ok := Fail(WrongProtocol);
        return;
      }
      var response := request.(serverReceived := received, serverPrepared := prepared);
      if response.serverPrepared < response.serverReceived {
        ok := Fail(ClockWentBack);
        return;
      }
      if !taken {
        ok := Fail(SubmitFailed);
        return;
      }
      sent := sent + [Sent(activeSendChannels[event.session], RESPONSE_PACKET_TYPE, Canonical(response))];
      ok := true;
    }

    /**
     The worker's thread over what the queue gives; it leaves when an event fails or, once told to stop, when idle.
     */
    method ThreadMain(pops: seq<Pop>) returns (ending: Ending, handled: nat)
      modifies this
      ensures handled <= |pops|
      ensures forall k | 0 <= k < handled :: pops[k].Popped? || pops[k] == QueueEmpty(false)
      ensures ending == Running <==> handled == |pops|
      ensures ending == Drained <==> handled < |pops| && pops[handled] == QueueEmpty(true)
      ensures ending == Failed ==> failure.Some? && handled < |pops|
      ensures ending == Failed ==>
        pops[handled] == PopRefused || !HandledBy(AfterAll(old(View()), pops[..handled]), pops[handled])
      ensures ending != Failed ==> failure == old(failure) && View() == AfterAll(old(View()), pops[..handled])
      ensures AllHandled(old(View()), pops[..handled])
      ensures sent == AfterAll(old(View()), pops[..handled]).sent
    {
      handled := 0;
      while handled < |pops|
        invariant handled <= |pops| && failure == old(failure)
        invariant forall k | 0 <= k < handled :: pops[k].Popped? || pops[k] == QueueEmpty(false)
        invariant View() == AfterAll(old(View()), pops[..handled]) && AllHandled(old(View()), pops[..handled])
      {
        assert pops[..handled + 1][..handled] == pops[..handled];
        match pops[handled] {
          case Popped(event, drainBegun, received, prepared, taken) =>
            if drainBegun {
              BeginDrainOnly();
            }
            var ok := ProcessEvent(event, received, prepared, taken);
            if !ok {
              return Failed, handled;
            }
          case QueueEmpty(stopRequested) =>
            if stopRequested {
              stopAfterDrain := true;
              return Drained, handled;
            }
          case PopRefused =>
            RecordFailure(PopFailed);
            return Failed, handled;
        }
        handled := handled + 1;
      }
      assert pops[..|pops|] == pops;
      ending := Running;
    }
  }

  /** One look at the queue, with what other threads have asked for by then. */
  datatype Pop =
    | Popped(event: Event, drainBegun: bool, received: uint64, prepared: uint64, taken: bool)
    | QueueEmpty(stopRequested: bool)
    | PopRefused

  datatype Ending = Running | Drained | Failed

  /** The worker's sessions, its drain flag and what it has sent. */
  datatype Work = Work(channels: map<SessionKey, Channel>, drainOnly: bool, sent: seq<Sent>)

  /** The answer an event calls for. */
  function Answered(w: Work, pop: Pop): seq<Sent>
    requires pop.Popped?
  {
    if w.drainOnly || pop.drainBegun || !pop.event.PacketReceived? || pop.event.session !in w.channels
       || pop.event.payload.None? || |pop.event.payload.value| != CANONICAL_PAYLOAD_BYTES then []
    else [Sent(w.channels[pop.event.session], RESPONSE_PACKET_TYPE,
               Echo(pop.event.payload.value, pop.received, pop.prepared))]
  }

  function AfterPop(w: Work, pop: Pop): Work {
    if !pop.Popped? then w
    else Work(ChannelsAfter(w.channels, pop.event), w.drainOnly || pop.drainBegun, w.sent + Answered(w, pop))
  }

  function AfterAll(w: Work, pops: seq<Pop>): Work {
    if pops == [] then w else AfterPop(AfterAll(w, pops[..|pops| - 1]), pops[|pops| - 1])
  }

  /** The worker does not fail on the pop. */
  predicate HandledBy(w: Work, pop: Pop) {
    pop.Popped? ==>
      Handles(w.channels, w.drainOnly || pop.drainBegun, pop.event, pop.received, pop.prepared, pop.taken)
  }

  predicate AllHandled(w: Work, pops: seq<Pop>) {
    pops == [] || (
      var front := pops[..|pops| - 1];
      AllHandled(w, front) && HandledBy(AfterAll(w, front), pops[|pops| - 1]))
  }

  // ---------- What a run says, looking back over the pops ----------

  const FRESH := Work(map[], false, [])

  /** The channel a session was last accepted with; None when it was closed since, or never accepted. */
  function AcceptedOn(pops: seq<Pop>, session: SessionKey): Option<Channel> {
    if pops == [] then None
    else
      var pop, earlier := pops[|pops| - 1], AcceptedOn(pops[..|pops| - 1], session);
      if !pop.Popped? then earlier
      else if pop.event.SessionAccepted? && pop.event.session == session then pop.event.channel
      else if pop.event.SessionClosed? && pop.event.session == session then None
      else earlier
  }

  /** The drain had begun by one of the pops. */
  predicate DrainBegun(pops: seq<Pop>) {
    exists i | 0 <= i < |pops| :: pops[i].Popped? && pops[i].drainBegun
  }

  /** Whether the pop is one the worker may meet after the earlier ones. */
  predicate Fits(earlier: seq<Pop>, pop: Pop) {
    pop.Popped? ==>
      match pop.event
      case SessionAccepted(session, channel) => channel.Some? && AcceptedOn(earlier, session).None?
      case SessionClosed(session) => AcceptedOn(earlier, session).Some?
      case PacketReceived(session, fieldsRead, packetType, payload) =>
        DrainBegun(earlier) || pop.drainBegun || (
          && fieldsRead && AcceptedOn(earlier, session).Some? && packetType == 0x7F01
          && payload.Some? && IsRequest(payload.value)
          && 0 < pop.received <= pop.prepared && pop.taken)
      case _ => false
  }

  predicate AllFit(pops: seq<Pop>) {
    forall i | 0 <= i < |pops| :: Fits(pops[..i], pops[i])
  }

  /** A packet that came before the drain. */
  predicate Asks(earlier: seq<Pop>, pop: Pop) {
    pop.Popped? && pop.event.PacketReceived? && !pop.drainBegun && !DrainBegun(earlier)
  }

  /** A request's answer: its own fields with the two readings, on the channel its session was last accepted with. */
  function AnswerTo(earlier: seq<Pop>, pop: Pop): Sent
    requires Asks(earlier, pop) && Fits(earlier, pop)
  {
    var request := Fields(pop.event.payload.value);
    Sent(AcceptedOn(earlier, pop.event.session).value, 0x7F02,
         Canonical(Payload(request.protocolVersion, request.operation, request.clientId, request.sequence,
                           request.clientSend, pop.received, pop.prepared)))
  }

  lemma FrontFits(pops: seq<Pop>)
    requires pops != []
    ensures AllFit(pops) <==> AllFit(pops[..|pops| - 1]) && Fits(pops[..|pops| - 1], pops[|pops| - 1])
  {
    var front := pops[..|pops| - 1];
    forall i | 0 <= i < |front|
      ensures pops[..i] == front[..i] && pops[i] == front[i]
    {
    }
    if AllFit(pops) {
      assert Fits(pops[..|front|], pops[|front|]);
    }
  }

  /** The answers of a run, in order. */
  function AllAnswers(pops: seq<Pop>): seq<Sent>
    requires AllFit(pops)
  {
    if pops == [] then []
    else
      var front, last := pops[..|pops| - 1], pops[|pops| - 1];
      FrontFits(pops);
      AllAnswers(front) + (if Asks(front, last) then [AnswerTo(front, last)] else [])
  }

  /** The open sessions are those last accepted and not closed since, each on its own channel. */
  ghost predicate ChannelsLookedUp(channels: map<SessionKey, Channel>, pops: seq<Pop>) {
    forall session ::
      AcceptedOn(pops, session) == if session in channels then Some(channels[session]) else None
  }

  lemma DrainByLast(pops: seq<Pop>)
    requires pops != []
    ensures var last := pops[|pops| - 1];
      DrainBegun(pops) <==> DrainBegun(pops[..|pops| - 1]) || (last.Popped? && last.drainBegun)
  {
    assert forall i | 0 <= i < |pops| - 1 :: pops[..|pops| - 1][i] == pops[i];
  }

  lemma FitIsHandled(w: Work, earlier: seq<Pop>, pop: Pop)
    requires ChannelsLookedUp(w.channels, earlier) && w.drainOnly == DrainBegun(earlier)
    ensures HandledBy(w, pop) <==> Fits(earlier, pop)
  {
  }

  lemma PopKeepsChannels(w: Work, pops: seq<Pop>)
    requires pops != [] && ChannelsLookedUp(w.channels, pops[..|pops| - 1]) && HandledBy(w, pops[|pops| - 1])
    ensures ChannelsLookedUp(AfterPop(w, pops[|pops| - 1]).channels, pops)
  {
  }

  /**
   A fresh worker gets through the pops exactly when each fits those before it; and then its sessions, its drain flag
   and its answers are those found by looking back: each request is answered once, in order, on the channel its session
   was last accepted with.
   */
  lemma {:induction false} RunAnswersRequests(pops: seq<Pop>)
    ensures AllHandled(FRESH, pops) <==> AllFit(pops)
    ensures AllFit(pops) ==>
      var w := AfterAll(FRESH, pops);
      ChannelsLookedUp(w.channels, pops) && w.drainOnly == DrainBegun(pops) && w.sent == AllAnswers(pops)
  {
    if pops != [] {
      var front, last := pops[..|pops| - 1], pops[|pops| - 1];
      RunAnswersRequests(front);
      FrontFits(pops);
      DrainByLast(pops);
      if AllFit(front) {
        var w := AfterAll(FRESH, front);
        FitIsHandled(w, front, last);
        if Fits(front, last) {
          PopKeepsChannels(w, pops);
        }
      }
    }
  }

  /** A payload is a request exactly when some client wrote it: version 2, echo, stamped, the server's times zero. */
  lemma RequestIff(payload: seq<byte>)
    ensures IsRequest(payload) <==>
      exists clientId: uint32, sequence: uint64, clientSend: uint64 ::
        clientSend > 0 && payload == Canonical(Payload(2, 1, clientId, sequence, clientSend, 0, 0))
  {
    if IsRequest(payload) {
      EncodeOfDecode(payload);
      var request := Fields(payload);
      assert payload == Canonical(Payload(2, 1, request.clientId, request.sequence, request.clientSend, 0, 0));
    }
    forall clientId: uint32, sequence: uint64, clientSend: uint64 |
      clientSend > 0 && payload == Canonical(Payload(2, 1, clientId, sequence, clientSend, 0, 0))
      ensures IsRequest(payload)
    {
      DecodeOfEncode(Payload(2, 1, clientId, sequence, clientSend, 0, 0));
    }
  }
}
