/**
 The asynchronous logger as a step machine. Each step is one access to shared state by one thread, but for the last step
 of a snapshot, which reads the fan-out's numbers and the queue's together: any number of producers inside Log, one
 holder of the lifecycle mutex, and the queue's worker. Steps are sequentially consistent;
 the acquire and release orderings alone do not order Shutdown's store of `accepting` before its load of
 `activeProducers`. A saturating add, a compare-exchange loop in the source, is the step of its successful exchange.
 */
module LoggerMachine {
  import opened Prelude
  import opened FanoutSink

  type Payload = seq<byte>

  datatype Message = LogMessage(payload: Payload) | FlushMessage | TerminateMessage

  datatype Lifecycle = Created | Started | Stopped

  /** Where a thread is inside ObserveBackendQueueCounters, holding the observer flag. */
  datatype ObserverPc =
    | ReadAttempts
    | ReadDiscards(attempts: int)
    | Compare(attempts: int, discards: int)
    | AddEnqueued(amount: int)
    | ClearFlag

  /** Where a producer is; each name says what it has just done. */
  datatype ProducerPc =
    | Idle
    | Checked                       // accepting was true
    | Counted                       // activeProducers raised
    | Refused                       // accepting was false on the second look
    | Entered                       // the guard is built
    | Attempted                     // attempted counted
    | Encoded(payload: Payload)     // about to use logger_
    | Discarding                    // the queue was full; its discard counter is not raised yet
    | Posted                        // back from the queue
    | Published                     // rawQueueAttempts raised
    | Observing(observer: ObserverPc)
    | Observed                      // about to ask the queue size
    | Measured(depth: nat)
    | Leaving                       // about to lower activeProducers

  datatype Health = Health(
    started: bool, attempted: int, filtered: int, dropped: int, enqueued: int, fileFailed: bool, consoleFailed: bool,
    consumed: int, discarded: int, queueDepth: nat, maximumDepth: nat)

  /** What the holder of the lifecycle mutex is about to do; Free when nobody holds it. */
  datatype ControlPc =
    | Free
    | StartPublish
    | CaptureFiltered(attempted: int)
    | CapturePool(attempted: int, filtered: int)
    | CaptureObserving(attempted: int, filtered: int, observer: ObserverPc)
    | CaptureDropped(attempted: int, filtered: int)
    | CaptureEnqueued(attempted: int, filtered: int, dropped: int)
    | CaptureSinks(attempted: int, filtered: int, dropped: int, enqueued: int)
    | ShutClose
    | ShutWait
    | ShutFlush
    | ShutPool(flushPosted: bool)
    | ShutObserving(flushPosted: bool, observer: ObserverPc)
    | ShutTerminate(flushPosted: bool)
    | ShutJoin(flushPosted: bool)
    | ShutSnapshot(flushPosted: bool)
    | ShutReset

  datatype WorkerPc = NoWorker | Waiting | Handling(message: Message) | Finished

  /** The fields that admit producers and own the backend. */
  datatype Gate = Gate(
    lifecycle: Lifecycle, accepting: bool, activeProducers: int, logger: bool, pool: bool, sink: bool)

  /** The producers' counters and the queue library's discard counter. */
  datatype Counters = Counters(attempted: int, filtered: int, rawAttempts: int, discardCounter: int)

  /** The fields under the observer flag; `credited` is the unsaturated total added to `enqueued`. */
  datatype Observation = Observation(
    flag: bool, attempts: int, discards: int, dropped: int, enqueued: int, credited: int)

  /** Which outputs the fan-out was built with, and every call it was given; no step looks at it. */
  datatype History = History(hasFile: bool, hasConsole: bool, calls: seq<Call>)

  /** The queue, its worker and the fan-out, with what entered the queue and what the worker has handled. */
  datatype Backend = Backend(
    capacity: nat, queue: seq<Message>, worker: WorkerPc, ledger: Ledger, cached: Ledger,
    accepted: seq<Payload>, processed: seq<Payload>, consumptions: nat, discards: nat, history: History)

  /** What really happened to the records, for stating properties; no step looks at it. */
  datatype Truth = Truth(attempts: nat, filters: nat, full: nat, lost: nat)

  datatype State = State(
    gate: Gate, counters: Counters, observation: Observation, backend: Backend, truth: Truth, maximumDepth: nat,
    producers: seq<ProducerPc>, control: ControlPc, health: Option<Health>)

  /** The choices the program does not make: what callers ask for and which calls throw. */
  datatype Choice =
    | Proceed
    | Filter                        // the record is invalid, below the minimum severity, or could not be encoded
    | Encode(payload: Payload)
    | Lose                          // the queue's own message copy throws and the queue library swallows it
    | Throw
    | CallStart | CallCapture | CallShutdown

  datatype Action =
    | Produce(producer: nat, choice: Choice)
    | Control(choice: Choice, fileFlushed: bool, consoleFlushed: bool)
    | Work(outcome: Outcome, fileFlushed: bool, consoleFlushed: bool)

  ghost predicate Initial(s: State) {
    exists capacity: nat, producerCount: nat, hasFile: bool, hasConsole: bool ::
      capacity > 0 && s == InitialState(capacity, producerCount, hasFile, hasConsole)
  }

  function InitialState(capacity: nat, producerCount: nat, hasFile: bool, hasConsole: bool): State {
    var ledger := InitialLedger(hasFile, hasConsole);
    State(Gate(Created, false, 0, false, false, false), Counters(0, 0, 0, 0), Observation(false, 0, 0, 0, 0, 0),
          Backend(capacity, [], NoWorker, ledger, ledger, [], [], 0, 0, History(hasFile, hasConsole, [])),
          Truth(0, 0, 0, 0), 0,
          seq(producerCount, _ => Idle), Free, None)
  }

  function AddSaturating(counter: int, amount: int): int {
    var remaining := UINT64_MAX - counter;
    if amount >= remaining then UINT64_MAX else counter + amount
  }

  // ---------- The observer ----------

  /** One step of ObserveBackendQueueCounters by the thread that holds the flag. */
  function Observe(b: Observation, c: Counters, o: ObserverPc): Observation {
    match o
    case ReadAttempts => b
    case ReadDiscards(_) => b
    case Compare(attempts, discards) =>
      if discards - b.discards <= attempts - b.attempts then
        b.(attempts := attempts, discards := discards, dropped := AddSaturating(b.dropped, discards - b.discards))
      else b
    case AddEnqueued(amount) =>
      b.(enqueued := AddSaturating(b.enqueued, amount), credited := b.credited + amount)
    case ClearFlag => b.(flag := false)
  }

  /** Where that thread is next; None when it has cleared the flag. */
  function AfterObserve(b: Observation, c: Counters, o: ObserverPc): Option<ObserverPc> {
    match o
    case ReadAttempts => Some(ReadDiscards(c.rawAttempts))
    case ReadDiscards(attempts) => Some(Compare(attempts, c.discardCounter))
    case Compare(attempts, discards) =>
      var attemptDelta, discardedDelta := attempts - b.attempts, discards - b.discards;
      if discardedDelta <= attemptDelta then Some(AddEnqueued(attemptDelta - discardedDelta)) else Some(ClearFlag)
    case AddEnqueued(_) => Some(ClearFlag)
    case ClearFlag => None
  }

  // ---------- Producers: Log ----------

  predicate InAdmission(pc: ProducerPc) {
    pc.Idle? || pc.Checked? || pc.Counted? || pc.Refused? || pc.Leaving?
  }

  predicate InRecord(pc: ProducerPc) {
    pc.Entered? || pc.Attempted? || pc.Encoded? || pc.Discarding? || pc.Posted?
  }

  predicate InObservation(pc: ProducerPc) {
    pc.Published? || pc.Observing?
  }

  /** TryEnterProducer and the guard's destructor. */
  function Admission(g: Gate, pc: ProducerPc): (Gate, ProducerPc) {
    match pc
    case Idle => (g, if g.accepting then Checked else Idle)
    case Checked => (g.(activeProducers := g.activeProducers + 1), Counted)
    case Counted => (g, if g.accepting then Entered else Refused)
    case _ => (g.(activeProducers := g.activeProducers - 1), Idle)
  }

  /** From the guard to the published attempt. */
  function RecordStep(s: State, i: nat, choice: Choice): State
    requires i < |s.producers|
  {
    var c, t, b := s.counters, s.truth, s.backend;
    match s.producers[i]
    case Entered =>
      s.(counters := c.(attempted := AddSaturating(c.attempted, 1)), truth := t.(attempts := t.attempts + 1),
         producers := s.producers[i := Attempted])
    case Attempted =>
      if choice.Encode? then s.(producers := s.producers[i := Encoded(choice.payload)])
      else s.(counters := c.(filtered := AddSaturating(c.filtered, 1)), truth := t.(filters := t.filters + 1),
              producers := s.producers[i := Leaving])
    case Encoded(payload) =>
      if choice.Lose? then s.(truth := t.(lost := t.lost + 1), producers := s.producers[i := Posted])
      else if |b.queue| < b.capacity then
        s.(backend := b.(queue := b.queue + [LogMessage(payload)], accepted := b.accepted + [payload]),
           producers := s.producers[i := Posted])
      else s.(truth := t.(full := t.full + 1), producers := s.producers[i := Discarding])
    case Discarding =>
      s.(counters := c.(discardCounter := c.discardCounter + 1), producers := s.producers[i := Posted])
    case _ =>
      s.(counters := c.(rawAttempts := c.rawAttempts + 1), producers := s.producers[i := Published])
  }

  /** ObserveBackendQueueCounters: skipped without a pool or while another thread observes. */
  function ObservationStep(s: State, i: nat): (Observation, ProducerPc)
    requires i < |s.producers|
  {
    var b := s.observation;
    match s.producers[i]
    case Observing(o) =>
      var next := AfterObserve(b, s.counters, o);
      (Observe(b, s.counters, o), if next.Some? then Observing(next.value) else Observed)
    case _ =>
      if !s.gate.pool || b.flag then (b, Observed) else (b.(flag := true), Observing(ReadAttempts))
  }

  function ProducerStep(s: State, i: nat, choice: Choice): State
    requires i < |s.producers|
  {
    var pc := s.producers[i];
    if InAdmission(pc) then
      var (gate, next) := Admission(s.gate, pc);
      s.(gate := gate, producers := s.producers[i := next])
    else if InRecord(pc) then RecordStep(s, i, choice)
    else if InObservation(pc) then
      var (observation, next) := ObservationStep(s, i);
      s.(observation := observation, producers := s.producers[i := next])
    else if pc.Observed? then s.(producers := s.producers[i := Measured(|s.backend.queue|)])
    else s.(maximumDepth := Max(s.maximumDepth, pc.depth), producers := s.producers[i := Leaving])
  }

  // ---------- The worker ----------

  predicate WorkerEnabled(b: Backend) {
    b.worker.Handling? || (b.worker == Waiting && b.queue != [])
  }

  /** A call on the fan-out. */
  function Called(b: Backend, call: Call): Backend {
    b.(ledger := AfterCall(b.ledger, call), history := b.history.(calls := b.history.calls + [call]))
  }

  function WorkerStep(b: Backend, outcome: Outcome, fileFlushed: bool, consoleFlushed: bool): Backend
    requires WorkerEnabled(b)
  {
    match b.worker
    case Handling(LogMessage(payload)) =>
      var discarding := b.ledger.fileFailed && b.ledger.consoleFailed;
      Called(b, ConsumeCall(outcome)).(
        worker := Waiting, processed := b.processed + [payload],
        consumptions := b.consumptions + (if discarding then 0 else 1),
        discards := b.discards + (if discarding then 1 else 0))
    case Handling(FlushMessage) => Called(b, FlushCall(fileFlushed, consoleFlushed)).(worker := Waiting)
    case Handling(TerminateMessage) => b.(worker := Finished)
    case _ => b.(worker := Handling(b.queue[0]), queue := b.queue[1..])
  }

  // ---------- The holder of the lifecycle mutex: Start, CaptureHealth, Shutdown ----------

  predicate Calling(choice: Choice) {
    choice.CallStart? || choice.Throw? || choice.CallCapture? || choice.CallShutdown?
  }

  /** Taking the mutex; a Start that throws is one step. */
  function CallStep(s: State, choice: Choice): State
    requires Calling(choice)
  {
    match choice
    case CallStart =>
      if s.gate.lifecycle != Created then s
      else s.(gate := s.gate.(lifecycle := Started, logger := true, pool := true, sink := true),
              backend := s.backend.(worker := Waiting), control := StartPublish)
    case Throw => if s.gate.lifecycle != Created then s else s.(gate := s.gate.(lifecycle := Stopped))
    case CallCapture => s.(control := CaptureFiltered(s.counters.attempted))
    case _ => if s.gate.lifecycle == Stopped then s else s.(control := ShutClose)
  }

  predicate Capturing(c: ControlPc) {
    c.CaptureFiltered? || c.CapturePool? || c.CaptureObserving? || c.CaptureDropped? || c.CaptureEnqueued?
    || c.CaptureSinks?
  }

  function CaptureStep(s: State): State
    requires Capturing(s.control)
  {
    var b := s.observation;
    match s.control
    case CaptureFiltered(attempted) => s.(control := CapturePool(attempted, s.counters.filtered))
    case CapturePool(attempted, filtered) =>
      if !s.gate.pool || b.flag then s.(control := CaptureDropped(attempted, filtered))
      else s.(observation := b.(flag := true), control := CaptureObserving(attempted, filtered, ReadAttempts))
    case CaptureObserving(attempted, filtered, o) =>
      var next := AfterObserve(b, s.counters, o);
      s.(observation := Observe(b, s.counters, o),
         control := if next.Some? then CaptureObserving(attempted, filtered, next.value)
                    else CaptureDropped(attempted, filtered))
    case CaptureDropped(attempted, filtered) => s.(control := CaptureEnqueued(attempted, filtered, b.dropped))
    case CaptureEnqueued(attempted, filtered, dropped) =>
      s.(control := CaptureSinks(attempted, filtered, dropped, b.enqueued))
    case CaptureSinks(attempted, filtered, dropped, enqueued) =>
      var snapshot := if s.gate.sink then s.backend.ledger else s.backend.cached;
      s.(control := Free,
         health := Some(Health(
           s.gate.lifecycle == Started, attempted, filtered, dropped, enqueued, snapshot.fileFailed,
           snapshot.consoleFailed, snapshot.consumed, snapshot.discarded,
           if s.gate.pool then |s.backend.queue| else 0, s.maximumDepth)))
  }

  predicate ShuttingDown(c: ControlPc) {
    !c.Free? && !c.StartPublish? && !Capturing(c)
  }

  /** post_flush and the destructor's terminate message block on a full queue; join waits for the worker. */
  predicate ShutdownEnabled(s: State, choice: Choice) {
    match s.control
    case ShutFlush => choice.Throw? || |s.backend.queue| < s.backend.capacity
    case ShutTerminate(_) => |s.backend.queue| < s.backend.capacity
    case ShutJoin(_) => s.backend.worker == Finished
    case _ => true
  }

  function ShutdownStep(s: State, choice: Choice, fileFlushed: bool, consoleFlushed: bool): State
    requires ShuttingDown(s.control)
  {
    var g, b, k := s.gate, s.observation, s.backend;
    match s.control
    case ShutClose => s.(gate := g.(accepting := false), control := ShutWait)
    case ShutWait =>
      if g.activeProducers != 0 then s else s.(control := if g.lifecycle == Started then ShutFlush else ShutReset)
    case ShutFlush =>
      if choice.Throw? then s.(control := ShutPool(false))
      else s.(backend := k.(queue := k.queue + [FlushMessage]), control := ShutPool(true))
    case ShutPool(flushPosted) =>
      if !g.pool || b.flag then s.(control := ShutTerminate(flushPosted))
      else s.(observation := b.(flag := true), control := ShutObserving(flushPosted, ReadAttempts))
    case ShutObserving(flushPosted, o) =>
      var next := AfterObserve(b, s.counters, o);
      s.(observation := Observe(b, s.counters, o),
         control := if next.Some? then ShutObserving(flushPosted, next.value) else ShutTerminate(flushPosted))
    case ShutTerminate(flushPosted) =>
      s.(backend := k.(queue := k.queue + [TerminateMessage]), control := ShutJoin(flushPosted))
    case ShutJoin(flushPosted) => s.(gate := g.(pool := false), control := ShutSnapshot(flushPosted))
    case ShutSnapshot(flushPosted) =>
      var flushed := if flushPosted then k else Called(k, FlushCall(fileFlushed, consoleFlushed));
      s.(backend := flushed.(cached := flushed.ledger), control := ShutReset)
    case _ => s.(gate := g.(logger := false, sink := false, lifecycle := Stopped), control := Free)
  }

  // ---------- Runs ----------

  predicate Enabled(s: State, a: Action) {
    match a
    case Produce(i, choice) => i < |s.producers| && (s.producers[i].Attempted? ==> choice.Filter? || choice.Encode?)
    case Control(choice, _, _) =>
      (s.control.Free? ==> Calling(choice)) && (ShuttingDown(s.control) ==> ShutdownEnabled(s, choice))
    case Work(_, _, _) => WorkerEnabled(s.backend)
  }

  function Next(s: State, a: Action): State
    requires Enabled(s, a)
  {
    match a
    case Produce(i, choice) => ProducerStep(s, i, choice)
    case Control(choice, fileFlushed, consoleFlushed) =>
      if s.control.Free? then CallStep(s, choice)
      else if s.control.StartPublish? then s.(gate := s.gate.(accepting := true), control := Free)
      else if Capturing(s.control) then CaptureStep(s)
      else ShutdownStep(s, choice, fileFlushed, consoleFlushed)
    case Work(outcome, fileFlushed, consoleFlushed) =>
      s.(backend := WorkerStep(s.backend, outcome, fileFlushed, consoleFlushed))
  }

  /** The state after any interleaving of actions; None when one of them was not enabled. */
  function Run(s: State, actions: seq<Action>): Option<State> {
    if actions == [] then Some(s)
    else
      var before := Run(s, actions[..|actions| - 1]);
      var a := actions[|actions| - 1];
      if before.Some? && Enabled(before.value, a) then Some(Next(before.value, a)) else None
  }
}
