/** One benchmark world client after it joined: the events it drains and the control commands it sends. */
module WorldClient {
  import opened Prelude

  datatype TurnState = Straight | Left | Right

  datatype BoostState = Off | On

  datatype RoundResult = RoundResult(roundId: uint32, endTick: uint32, winningGrowthPoint: uint32, winners: seq<uint32>)

  /** The server's notice that the player now controls another entity. */
  datatype Rebind = Rebind(playerId: uint32, previousEntityId: uint32, previousGeneration: uint32, entityId: uint32,
                           generation: uint32) {
    /** What decoding accepts: no zero field, and another entity or another generation. */
    predicate Valid() {
      && playerId != 0 && previousEntityId != 0 && previousGeneration != 0 && entityId != 0 && generation != 0
      && (previousEntityId != entityId || previousGeneration != generation)
    }
  }

  /**
   One look at the client's event queue; an empty queue ends the list. `shutdownOk` is how closing the client goes.
   */
  datatype Read =
    | RebindRead(rebind: Rebind)
    | ResultRead(result: RoundResult, shutdownOk: bool)
    | OtherPacket
    | Undecodable
    | Disconnected
    | OtherLifecycle
    | ReadFailed

  datatype Error =
    | DrainStateInvalid | CannotRead | CannotDecode | InconsistentRebind | DuplicateResult | ShutdownFailed
    | DisconnectedEarly | UnexpectedEvent | SendStateInvalid | SequenceExhausted | SendFailed | CountsDiffer

  /** The fields of the client object; `valid` is whether it holds a network client. */
  datatype State = State(
    valid: bool, joined: bool, resultCommitted: bool, connectionClosed: bool, playerId: uint32, entityId: uint32,
    generation: uint32, nextSequence: uint32, result: Option<RoundResult>)

  /** What Start leaves behind when the join succeeds. */
  function Joined(playerId: uint32, entityId: uint32, generation: uint32): State {
    State(true, true, false, false, playerId, entityId, generation, 1, None)
  }

  datatype Control = Control(generation: uint32, turn: TurnState, boost: BoostState)

  datatype Command = Command(control: Control, sequence: uint32)

  // ---------- Single steps ----------

  predicate Fits(s: State, rebind: Rebind) {
    && rebind.Valid() && rebind.playerId == s.playerId
    && rebind.previousEntityId == s.entityId && rebind.previousGeneration == s.generation
  }

  function AfterRead(s: State, read: Read): (State, Option<Error>) {
    match read
    case RebindRead(rebind) =>
      if !rebind.Valid() then (s, Some(CannotDecode))
      else if !Fits(s, rebind) then (s, Some(InconsistentRebind))
      else (s.(entityId := rebind.entityId, generation := rebind.generation, nextSequence := 1), None)
    case ResultRead(result, shutdownOk) =>
      if s.resultCommitted then (s, Some(DuplicateResult))
      else
        var committed := s.(result := Some(result), resultCommitted := true);
        if !shutdownOk then (committed, Some(ShutdownFailed))
        else (committed.(valid := false, joined := false, connectionClosed := true), None)
    case OtherPacket => (s, None)
    case Undecodable => (s, Some(CannotDecode))
    case Disconnected => (s, Some(DisconnectedEarly))
    case OtherLifecycle => (s, Some(UnexpectedEvent))
    case ReadFailed => (s, Some(CannotRead))
  }

  /** The whole drain: it stops at an error, at a committed result, or at the end of the queue. */
  function AfterReads(s: State, queue: seq<Read>): (State, Option<Error>)
    decreases |queue|
  {
    if queue == [] || s.connectionClosed then (s, None)
    else
      var (next, error) := AfterRead(s, queue[0]);
      if error.Some? then (next, error) else AfterReads(next, queue[1..])
  }

  /** Whether the drain takes a rebind on the way. */
  predicate Rebinds(s: State, queue: seq<Read>)
    decreases |queue|
  {
    if queue == [] || s.connectionClosed then false
    else
      var (next, error) := AfterRead(s, queue[0]);
      error.None? && (queue[0].RebindRead? || Rebinds(next, queue[1..]))
  }

  /** DrainAvailableEvents: nothing to do once the connection is closed. */
  function Drained(s: State, queue: seq<Read>): (State, Option<Error>) {
    if s.connectionClosed then (s, None)
    else if !s.valid || !s.joined then (s, Some(DrainStateInvalid))
    else AfterReads(s, queue)
  }

  /** The complaint SendControlState makes before it sends anything. */
  function SendRefusal(s: State): Option<Error> {
    if !s.valid || !s.joined || s.resultCommitted then Some(SendStateInvalid)
    else if s.nextSequence == 0 || s.nextSequence == UINT32_MAX then Some(SequenceExhausted)
    else None
  }

  // ---------- What a fleet relies on ----------

  /** Playing: joined, valid and without a result. */
  predicate Playing(s: State) {
    s.valid && s.joined && !s.resultCommitted && !s.connectionClosed && s.nextSequence >= 1
  }

  /** Done: closed with a committed result. */
  predicate Done(s: State) {
    !s.valid && !s.joined && s.resultCommitted && s.connectionClosed && s.result.Some?
  }

  predicate Sound(s: State) {
    Playing(s) || Done(s)
  }

  lemma {:induction false} ReadsKeepSound(s: State, queue: seq<Read>)
    requires Sound(s) && AfterReads(s, queue).1.None?
    ensures Sound(AfterReads(s, queue).0)
    ensures Rebinds(s, queue) ==> AfterReads(s, queue).0.nextSequence == 1
    ensures !Rebinds(s, queue) ==>
      var t := AfterReads(s, queue).0; t.nextSequence == s.nextSequence && t.generation == s.generation
    decreases |queue|
  {
    if queue != [] && !s.connectionClosed {
      ReadsKeepSound(AfterRead(s, queue[0]).0, queue[1..]);
    }
  }

  /** A sound client is never refused the drain, and a playing one never refused to send for its state. */
  lemma SoundIsNeverRefused(s: State, queue: seq<Read>)
    requires Sound(s)
    ensures Drained(s, queue) == AfterReads(s, queue)
    ensures Drained(s, queue).1 != Some(DrainStateInvalid)
    ensures Playing(s) ==> SendRefusal(s) == if s.nextSequence == UINT32_MAX then Some(SequenceExhausted) else None
  {
    NoStateComplaint(s, queue);
  }

  lemma {:induction false} NoStateComplaint(s: State, queue: seq<Read>)
    ensures AfterReads(s, queue).1 != Some(DrainStateInvalid)
    decreases |queue|
  {
    if queue != [] && !s.connectionClosed {
      NoStateComplaint(AfterRead(s, queue[0]).0, queue[1..]);
    }
  }

  // ---------- What a drain comes to, looking back over the queue ----------

  /** How many reads come before the first result. */
  function UntilResult(queue: seq<Read>): (n: nat)
    ensures n <= |queue|
    ensures n < |queue| ==> queue[n].ResultRead?
    ensures forall i | 0 <= i < n :: !queue[i].ResultRead?
  {
    if queue == [] || queue[0].ResultRead? then 0 else 1 + UntilResult(queue[1..])
  }

  /** The entity and generation the last rebind names, or those the client had before any. */
  function EntityAfter(s: State, taken: seq<Read>): (uint32, uint32) {
    if taken == [] then (s.entityId, s.generation)
    else
      match taken[|taken| - 1]
      case RebindRead(rebind) => (rebind.entityId, rebind.generation)
      case _ => EntityAfter(s, taken[..|taken| - 1])
  }

  predicate HasRebind(taken: seq<Read>) {
    exists i | 0 <= i < |taken| :: taken[i].RebindRead?
  }

  /** The read after `earlier` is no error: a rebind goes on from the entity those left, a result closes the client. */
  predicate IsClean(s: State, earlier: seq<Read>, read: Read) {
    match read
    case RebindRead(rebind) =>
      && rebind.Valid() && rebind.playerId == s.playerId
      && (rebind.previousEntityId, rebind.previousGeneration) == EntityAfter(s, earlier)
    case ResultRead(_, shutdownOk) => shutdownOk
    case OtherPacket => true
    case _ => false
  }

  /** Everything up to and with the first result is clean. */
  predicate AllClean(s: State, queue: seq<Read>) {
    forall i | 0 <= i < |queue| && i <= UntilResult(queue) :: IsClean(s, queue[..i], queue[i])
  }

  lemma {:induction false} EntityShifts(s: State, next: State, taken: seq<Read>)
    requires taken != [] && (next.entityId, next.generation) == EntityAfter(s, taken[..1])
    ensures EntityAfter(next, taken[1..]) == EntityAfter(s, taken)
  {
    if |taken| == 1 {
      assert taken[..1] == taken;
    } else {
      var front := taken[..|taken| - 1];
      assert front[..1] == taken[..1] && front[1..] == taken[1..][..|taken| - 2];
      assert taken[1..][|taken| - 2] == taken[|taken| - 1];
      EntityShifts(s, next, front);
    }
  }

  lemma CleanShifts(s: State, next: State, queue: seq<Read>)
    requires queue != [] && !queue[0].ResultRead? && next.playerId == s.playerId
    requires (next.entityId, next.generation) == EntityAfter(s, queue[..1])
    ensures AllClean(s, queue) <==> IsClean(s, [], queue[0]) && AllClean(next, queue[1..])
  {
    var rest := queue[1..];
    assert UntilResult(queue) == 1 + UntilResult(rest);
    forall i | 0 <= i < |rest|
      ensures IsClean(next, rest[..i], rest[i]) <==> IsClean(s, queue[..i + 1], queue[i + 1])
    {
      EntityShifts(s, next, queue[..i + 1]);
      assert queue[..i + 1][..1] == queue[..1] && queue[..i + 1][1..] == rest[..i];
    }
    assert queue[..0] == [];
    if AllClean(s, queue) {
      assert IsClean(s, queue[..0], queue[0]);
      forall i | 0 <= i < |rest| && i <= UntilResult(rest)
        ensures IsClean(next, rest[..i], rest[i])
      {
        assert IsClean(s, queue[..i + 1], queue[i + 1]);
      }
    }
  }

  /** What a client is after it has taken the reads before a result, and the result if there is one. */
  function AfterClean(s: State, queue: seq<Read>): State {
    var n := UntilResult(queue);
    var (entityId, generation) := EntityAfter(s, queue[..n]);
    var rebound := s.(entityId := entityId, generation := generation,
                      nextSequence := if HasRebind(queue[..n]) then 1 else s.nextSequence);
    if n == |queue| then rebound
    else rebound.(result := Some(queue[n].result), resultCommitted := true, valid := false, joined := false,
                  connectionClosed := true)
  }

  lemma AfterCleanShifts(s: State, next: State, queue: seq<Read>)
    requires queue != [] && !queue[0].ResultRead?
    requires (next.entityId, next.generation) == EntityAfter(s, queue[..1])
    requires next == s.(entityId := next.entityId, generation := next.generation,
                        nextSequence := if queue[0].RebindRead? then 1 else s.nextSequence)
    ensures AfterClean(next, queue[1..]) == AfterClean(s, queue)
  {
    var rest := queue[1..];
    var n := UntilResult(rest);
    assert UntilResult(queue) == n + 1;
    EntityShifts(s, next, queue[..n + 1]);
    assert queue[..n + 1][..1] == queue[..1] && queue[..n + 1][1..] == rest[..n];
    assert HasRebind(queue[..n + 1]) <==> queue[0].RebindRead? || HasRebind(rest[..n]) by {
      assert forall i | 0 <= i < n :: rest[..n][i] == queue[..n + 1][i + 1];
      if HasRebind(rest[..n]) {
        var i :| 0 <= i < n && rest[..n][i].RebindRead?;
        assert queue[..n + 1][i + 1].RebindRead?;
      }
      assert queue[..n + 1][0] == queue[0];
    }
  }

  /**
   A playing client gets through its queue exactly when every read up to the first result is clean: each rebind is
   addressed to it and goes on from the entity the rebind before left. It then controls the entity the last of them
   names and holds the result received, if any, and nothing behind the result was looked at.
   */
  lemma {:induction false} DrainIff(s: State, queue: seq<Read>)
    requires Playing(s)
    ensures AfterReads(s, queue).1.None? <==> AllClean(s, queue)
    ensures AllClean(s, queue) ==> AfterReads(s, queue).0 == AfterClean(s, queue)
    decreases |queue|
  {
    if queue != [] {
      assert queue[..0] == [] && queue[..1] == [queue[0]] && queue[..1][..0] == [];
      var (next, error) := AfterRead(s, queue[0]);
      if queue[0].ResultRead? {
        assert AllClean(s, queue) <==> IsClean(s, queue[..0], queue[0]);
      } else if error.None? {
        CleanShifts(s, next, queue);
        AfterCleanShifts(s, next, queue);
        DrainIff(next, queue[1..]);
      } else {
        assert AllClean(s, queue) ==> IsClean(s, queue[..0], queue[0]);
      }
    }
  }

  /** The error tells the truth about the read after `earlier`. */
  predicate Blames(error: Error, s: State, earlier: seq<Read>, read: Read) {
    match error
    case CannotDecode => read.Undecodable? || (read.RebindRead? && !read.rebind.Valid())
    case InconsistentRebind =>
      read.RebindRead? && read.rebind.Valid() && (
        || read.rebind.playerId != s.playerId
        || (read.rebind.previousEntityId, read.rebind.previousGeneration) != EntityAfter(s, earlier))
    case ShutdownFailed => read.ResultRead? && !read.shutdownOk
    case DisconnectedEarly => read.Disconnected?
    case UnexpectedEvent => read.OtherLifecycle?
    case CannotRead => read.ReadFailed?
    case _ => false
  }

  /** Read `k` is the first that is not clean, and the error is about it. */
  predicate BlamesFirst(error: Error, s: State, queue: seq<Read>, k: nat) {
    && k < |queue| && Blames(error, s, queue[..k], queue[k])
    && forall i | 0 <= i < k :: IsClean(s, queue[..i], queue[i]) && !queue[i].ResultRead?
  }

  lemma BlameShifts(error: Error, s: State, next: State, queue: seq<Read>, k: nat)
    requires queue != [] && !queue[0].ResultRead? && next.playerId == s.playerId && IsClean(s, [], queue[0])
    requires (next.entityId, next.generation) == EntityAfter(s, queue[..1]) && BlamesFirst(error, next, queue[1..], k)
    ensures BlamesFirst(error, s, queue, k + 1)
  {
    var rest := queue[1..];
    assert queue[..0] == [];
    forall i | 0 <= i <= k
      ensures EntityAfter(next, rest[..i]) == EntityAfter(s, queue[..i + 1])
    {
      EntityShifts(s, next, queue[..i + 1]);
      assert queue[..i + 1][..1] == queue[..1] && queue[..i + 1][1..] == rest[..i];
    }
    forall i | 0 <= i < k + 1
      ensures IsClean(s, queue[..i], queue[i]) && !queue[i].ResultRead?
    {
      if i > 0 {
        assert IsClean(next, rest[..i - 1], rest[i - 1]) && rest[i - 1] == queue[i];
      }
    }
  }

  /** A drain that fails says what is wrong with the first read that is not clean. */
  lemma {:induction false} DrainErrorIsTrue(s: State, queue: seq<Read>) returns (k: nat)
    requires Playing(s) && AfterReads(s, queue).1.Some?
    ensures BlamesFirst(AfterReads(s, queue).1.value, s, queue, k)
    decreases |queue|
  {
    assert queue[..0] == [] && queue[..1] == [queue[0]] && queue[..1][..0] == [];
    var (next, error) := AfterRead(s, queue[0]);
    if error.Some? {
      k := 0;
    } else {
      var later := DrainErrorIsTrue(next, queue[1..]);
      BlameShifts(AfterReads(s, queue).1.value, s, next, queue, later);
      k := later + 1;
    }
  }

  // ---------- The client object ----------

  class BenchmarkWorldClient {
    var valid: bool
    var joined: bool
    var roundResultCommitted: bool
    var resultConnectionClosed: bool
    var playerId: uint32
    var controlledEntityId: uint32
    var controlledEntityGeneration: uint32
    var nextControlSequence: uint32
    var roundResult: Option<RoundResult>
    /** The commands the network client took. */
    ghost var sent: seq<Command>

    ghost function View(): State
      reads this
    {
      State(valid, joined, roundResultCommitted, resultConnectionClosed, playerId, controlledEntityId,
            controlledEntityGeneration, nextControlSequence, roundResult)
    }

    constructor (playerId: uint32, entityId: uint32, generation: uint32)
      ensures View() == Joined(playerId, entityId, generation) && sent == []
    {
      valid, joined, roundResultCommitted, resultConnectionClosed := true, true, false, false;
      this.playerId, controlledEntityId, controlledEntityGeneration := playerId, entityId, generation;
      nextControlSequence, roundResult, sent := 1, None, [];
    }

    /** Takes what the queue holds. */
    method DrainAvailableEvents(queue: seq<Read>) returns (error: Option<Error>)
      modifies this
      ensures (View(), error) == Drained(old(View()), queue)
      ensures sent == old(sent)
    {
      if resultConnectionClosed {
        return None;
      }
      if !valid || !joined {
        return Some(DrainStateInvalid);
      }
      ghost var start := View();
      for i := 0 to |queue|
        invariant !resultConnectionClosed && sent == old(sent)
        invariant AfterReads(start, queue) == AfterReads(View(), queue[i..])
      {
        assert queue[i..][1..] == queue[i + 1..];
        match queue[i] {
          case RebindRead(rebind) =>
            if !rebind.Valid() {
              return Some(CannotDecode);
            }
            if rebind.playerId != playerId || rebind.previousEntityId != controlledEntityId
               || rebind.previousGeneration != controlledEntityGeneration {
              return Some(InconsistentRebind);
            }
            controlledEntityId, controlledEntityGeneration := rebind.entityId, rebind.generation;
            nextControlSequence := 1;
          case ResultRead(result, shutdownOk) =>
            if roundResultCommitted {
              return Some(DuplicateResult);
            }
            roundResult, roundResultCommitted := Some(result), true;
            if !shutdownOk {
              return Some(ShutdownFailed);
            }
            valid, joined, resultConnectionClosed := false, false, true;
            return None;
          case OtherPacket =>
          case Undecodable =>
            return Some(CannotDecode);
          case Disconnected =>
            return Some(DisconnectedEarly);
          case OtherLifecycle =>
            return Some(UnexpectedEvent);
          case ReadFailed =>
            return Some(CannotRead);
        }
      }
      error := None;
    }

    /** Sends one command under the next number; `taken` is whether the network client takes it. */
    method SendControlState(turn: TurnState, boost: BoostState, taken: bool) returns (error: Option<Error>)
      modifies this`nextControlSequence, this`sent
      ensures error == if SendRefusal(old(View())).Some? then SendRefusal(old(View()))
                       else if taken then None else Some(SendFailed)
      ensures error.Some? ==> View() == old(View()) && sent == old(sent)
      ensures error.None? ==>
        && View() == old(View()).(nextSequence := nextControlSequence)
        && nextControlSequence == old(nextControlSequence) + 1
        && sent == old(sent) + [Command(Control(controlledEntityGeneration, turn, boost), old(nextControlSequence))]
    {
      if !valid || !joined || roundResultCommitted {
        return Some(SendStateInvalid);
      }
      if nextControlSequence == 0 || nextControlSequence == UINT32_MAX {
        return Some(SequenceExhausted);
      }
      if !taken {
        return Some(SendFailed);
      }
      sent := sent + [Command(Control(controlledEntityGeneration, turn, boost), nextControlSequence)];
      nextControlSequence := nextControlSequence + 1;
      error := None;
    }
  }
}
