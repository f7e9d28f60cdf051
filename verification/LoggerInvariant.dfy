/** What every step of the logger machine keeps. */
module LoggerInvariant {
  import opened Prelude
  import opened FanoutSink
  import opened LoggerMachine
  import opened Sums

  // ---------- What each place in Log counts for ----------

  /** Has raised activeProducers and not lowered it. */
  function InGuard(pc: ProducerPc): int {
    if pc.Idle? || pc.Checked? then 0 else 1
  }

  /** Past the second look at `accepting`: may use logger_ and threadPool_. */
  function Inside(pc: ProducerPc): int {
    if pc.Idle? || pc.Checked? || pc.Counted? || pc.Refused? then 0 else 1
  }

  function Undecided(pc: ProducerPc): int {
    if pc.Attempted? || pc.Encoded? then 1 else 0
  }

  function OwesDiscard(pc: ProducerPc): int {
    if pc.Discarding? then 1 else 0
  }

  function OwesPublication(pc: ProducerPc): int {
    if pc.Discarding? || pc.Posted? then 1 else 0
  }

  function HoldsFlag(pc: ProducerPc): int {
    if pc.Observing? then 1 else 0
  }

  function CreditOf(o: ObserverPc): int {
    if o.AddEnqueued? && o.amount >= 0 then o.amount else 0
  }

  function OwesCredit(pc: ProducerPc): int {
    if pc.Observing? then CreditOf(pc.observer) else 0
  }

  function ControlObserver(c: ControlPc): Option<ObserverPc> {
    if c.CaptureObserving? then Some(c.observer)
    else if c.ShutObserving? then Some(c.observer)
    else None
  }

  /** All seven sums after one producer moved. */
  lemma SumsAfterMove(pcs: seq<ProducerPc>, i: nat, pc: ProducerPc)
    requires i < |pcs|
    ensures Sum(pcs[i := pc], InGuard) == Sum(pcs, InGuard) - InGuard(pcs[i]) + InGuard(pc)
    ensures Sum(pcs[i := pc], Inside) == Sum(pcs, Inside) - Inside(pcs[i]) + Inside(pc)
    ensures Sum(pcs[i := pc], Undecided) == Sum(pcs, Undecided) - Undecided(pcs[i]) + Undecided(pc)
    ensures Sum(pcs[i := pc], OwesDiscard) == Sum(pcs, OwesDiscard) - OwesDiscard(pcs[i]) + OwesDiscard(pc)
    ensures Sum(pcs[i := pc], OwesPublication)
         == Sum(pcs, OwesPublication) - OwesPublication(pcs[i]) + OwesPublication(pc)
    ensures Sum(pcs[i := pc], HoldsFlag) == Sum(pcs, HoldsFlag) - HoldsFlag(pcs[i]) + HoldsFlag(pc)
    ensures Sum(pcs[i := pc], OwesCredit) == Sum(pcs, OwesCredit) - OwesCredit(pcs[i]) + OwesCredit(pc)
  {
    SumUpdate(pcs, i, pc, InGuard);
    SumUpdate(pcs, i, pc, Inside);
    SumUpdate(pcs, i, pc, Undecided);
    SumUpdate(pcs, i, pc, OwesDiscard);
    SumUpdate(pcs, i, pc, OwesPublication);
    SumUpdate(pcs, i, pc, HoldsFlag);
    SumUpdate(pcs, i, pc, OwesCredit);
  }

  // ---------- The invariant ----------

  /** Records the queue took, or lost without saying so. */
  function Taken(s: State): int {
    |s.backend.accepted| + s.truth.lost
  }

  /** The counters agree with what happened, up to what producers still owe. */
  ghost predicate CountersAgree(c: Counters, t: Truth, taken: int, pcs: seq<ProducerPc>) {
    && c.attempted == Min(t.attempts, UINT64_MAX)
    && c.filtered == Min(t.filters, UINT64_MAX)
    && t.attempts == t.filters + taken + t.full + Sum(pcs, Undecided)
    && c.rawAttempts + Sum(pcs, OwesPublication) == taken + t.full
    && c.discardCounter + Sum(pcs, OwesDiscard) == t.full
  }

  /** What an observer part-way through has read is consistent with the counters now. */
  ghost predicate ObserverAgrees(o: ObserverPc, b: Observation, c: Counters, taken: int) {
    match o
    case ReadAttempts => true
    case ReadDiscards(attempts) =>
      b.attempts <= attempts <= c.rawAttempts && attempts - c.discardCounter <= taken
    case Compare(attempts, discards) =>
      && b.attempts <= attempts <= c.rawAttempts && attempts - discards <= taken
      && b.discards <= discards <= c.discardCounter
    case AddEnqueued(amount) => amount >= 0
    case ClearFlag => true
  }

  ghost predicate ProducersAgree(pcs: seq<ProducerPc>, b: Observation, c: Counters, taken: int) {
    forall i | 0 <= i < |pcs| :: pcs[i].Observing? ==> ObserverAgrees(pcs[i].observer, b, c, taken)
  }

  ghost predicate ControlAgrees(control: ControlPc, b: Observation, c: Counters, taken: int) {
    ControlObserver(control).Some? ==> ObserverAgrees(ControlObserver(control).value, b, c, taken)
  }

  function ControlCredit(c: ControlPc): int {
    if ControlObserver(c).Some? then CreditOf(ControlObserver(c).value) else 0
  }

  /** The observed split never exceeds the truth, and the published counters are its saturated totals. */
  ghost predicate SplitSound(b: Observation, c: Counters, taken: int, owed: int) {
    && 0 <= b.attempts <= c.rawAttempts
    && 0 <= b.discards <= c.discardCounter
    && 0 <= b.attempts - b.discards <= taken
    && b.dropped == Min(b.discards, UINT64_MAX)
    && 0 <= b.credited && b.enqueued == Min(b.credited, UINT64_MAX)
    && b.credited + owed == b.attempts - b.discards
  }

  function Owed(s: State): int {
    Sum(s.producers, OwesCredit) + ControlCredit(s.control)
  }

  ghost predicate ObservationSound(s: State) {
    && SplitSound(s.observation, s.counters, Taken(s), Owed(s))
    && ProducersAgree(s.producers, s.observation, s.counters, Taken(s))
    && ControlAgrees(s.control, s.observation, s.counters, Taken(s))
  }

  /** The flag is up exactly while one thread observes. */
  ghost predicate OneObserver(flag: bool, pcs: seq<ProducerPc>, control: ControlPc) {
    (if flag then 1 else 0) == Sum(pcs, HoldsFlag) + (if ControlObserver(control).Some? then 1 else 0)
  }

  /** Shutdown has closed admission. */
  predicate Closing(c: ControlPc) {
    c.ShutWait? || Quiet(c)
  }

  /** Shutdown has seen no active producer since closing. */
  predicate Quiet(c: ControlPc) {
    OnStarted(c) || c.ShutReset?
  }

  /** The part of Shutdown only a started logger reaches. */
  predicate OnStarted(c: ControlPc) {
    c.ShutFlush? || c.ShutPool? || c.ShutObserving? || c.ShutTerminate? || c.ShutJoin? || c.ShutSnapshot?
  }

  /** Who may be where while which objects exist. */
  ghost predicate LifetimesSound(g: Gate, pcs: seq<ProducerPc>, control: ControlPc) {
    && g.activeProducers == Sum(pcs, InGuard)
    && (g.accepting ==> g.lifecycle == Started && !Closing(control) && !control.StartPublish?)
    && (Sum(pcs, Inside) > 0 ==> g.lifecycle == Started && !Quiet(control) && !control.StartPublish?)
    && (g.logger <==> g.lifecycle == Started) && (g.sink <==> g.lifecycle == Started)
    && (g.pool <==> g.lifecycle == Started && !control.ShutSnapshot? && !control.ShutReset?)
    && (control.StartPublish? || control.CaptureObserving? || OnStarted(control) ==> g.lifecycle == Started)
    && (ShuttingDown(control) ==> g.lifecycle != Stopped)
  }

  /** Before Start nothing has happened. */
  ghost predicate NothingBeforeStart(s: State) {
    && (s.gate.lifecycle == Created ==> s.backend.worker == NoWorker)
    && (s.backend.worker == NoWorker ==>
          s.gate.lifecycle != Started && s.backend.queue == [] && s.truth.attempts == 0
          && s.backend.cached == s.backend.ledger)
  }

  ghost predicate AllObserved(b: Observation, c: Counters) {
    b.attempts == c.rawAttempts && b.discards == c.discardCounter
  }

  /** Once quiet, what Shutdown reads is final. */
  ghost predicate ShutdownReadsFinal(lifecycle: Lifecycle, control: ControlPc, b: Observation, c: Counters) {
    match control
    case ShutObserving(_, ReadAttempts) => true
    case ShutObserving(_, ReadDiscards(attempts)) => attempts == c.rawAttempts
    case ShutObserving(_, Compare(attempts, discards)) => attempts == c.rawAttempts && discards == c.discardCounter
    case ShutObserving(_, _) => AllObserved(b, c)
    case ShutTerminate(_) => AllObserved(b, c)
    case ShutJoin(_) => AllObserved(b, c)
    case ShutSnapshot(_) => AllObserved(b, c)
    case ShutReset => AllObserved(b, c)
    case _ => lifecycle == Stopped ==> AllObserved(b, c)
  }

  // ---------- The queue and the worker ----------

  function Payloads(queue: seq<Message>): seq<Payload> {
    if queue == [] then []
    else (if queue[0].LogMessage? then [queue[0].payload] else []) + Payloads(queue[1..])
  }

  function InHand(worker: WorkerPc): seq<Payload> {
    if worker.Handling? && worker.message.LogMessage? then [worker.message.payload] else []
  }

  predicate NoTerminate(queue: seq<Message>) {
    forall i | 0 <= i < |queue| :: !queue[i].TerminateMessage?
  }

  predicate AfterTerminate(worker: WorkerPc) {
    worker == Finished || worker == Handling(TerminateMessage)
  }

  /** The terminate message is behind everything else. */
  predicate TerminateIsLast(queue: seq<Message>, worker: WorkerPc) {
    if AfterTerminate(worker) then queue == []
    else queue != [] && queue[|queue| - 1] == TerminateMessage && NoTerminate(queue[..|queue| - 1])
  }

  /** Nothing is lost or reordered between the queue and the worker. */
  ghost predicate InOrder(k: Backend) {
    k.accepted == k.processed + InHand(k.worker) + Payloads(k.queue)
  }

  /** Every record handled is counted once. */
  ghost predicate CountedOnce(k: Backend) {
    && k.consumptions + k.discards == |k.processed|
    && k.ledger.consumed == Min(k.consumptions, UINT64_MAX)
    && k.ledger.discarded == Min(k.discards, UINT64_MAX)
  }

  ghost predicate BackendSound(k: Backend) {
    0 < k.capacity && |k.queue| <= k.capacity && InOrder(k) && CountedOnce(k)
  }

  /** Where the terminate message is at each stage of Shutdown. */
  ghost predicate TerminationSound(k: Backend, lifecycle: Lifecycle, control: ControlPc) {
    && (if control.ShutJoin? then k.worker != NoWorker && TerminateIsLast(k.queue, k.worker)
        else if k.worker != NoWorker && (control.ShutSnapshot? || control.ShutReset? || lifecycle == Stopped)
        then k.worker == Finished && k.queue == []
        else NoTerminate(k.queue) && !AfterTerminate(k.worker))
    && (lifecycle == Stopped || control.ShutReset? ==> k.cached == k.ledger)
  }

  ghost predicate DepthsBounded(s: State) {
    && s.maximumDepth <= s.backend.capacity
    && forall i | 0 <= i < |s.producers| :: s.producers[i].Measured? ==> s.producers[i].depth <= s.backend.capacity
  }

  ghost predicate Invariant(s: State) {
    && CountersAgree(s.counters, s.truth, Taken(s), s.producers)
    && ObservationSound(s)
    && OneObserver(s.observation.flag, s.producers, s.control)
    && LifetimesSound(s.gate, s.producers, s.control)
    && NothingBeforeStart(s)
    && ShutdownReadsFinal(s.gate.lifecycle, s.control, s.observation, s.counters)
    && BackendSound(s.backend)
    && TerminationSound(s.backend, s.gate.lifecycle, s.control)
    && DepthsBounded(s)
  }

  // ---------- Producer steps ----------

  lemma SumsNonNegative(pcs: seq<ProducerPc>)
    ensures Sum(pcs, InGuard) >= 0 && Sum(pcs, Inside) >= 0 && Sum(pcs, Undecided) >= 0
    ensures Sum(pcs, OwesDiscard) >= 0 && Sum(pcs, OwesPublication) >= 0
    ensures Sum(pcs, HoldsFlag) >= 0 && Sum(pcs, OwesCredit) >= 0
    ensures Sum(pcs, Inside) <= Sum(pcs, InGuard) && Sum(pcs, OwesDiscard) <= Sum(pcs, OwesPublication)
    ensures Sum(pcs, Undecided) <= Sum(pcs, Inside) && Sum(pcs, OwesPublication) <= Sum(pcs, Inside)
    ensures Sum(pcs, HoldsFlag) <= Sum(pcs, Inside)
  {
    SumBoundsTerm(pcs, 0, Undecided);
    SumBoundsTerm(pcs, 0, OwesDiscard);
    SumBoundsTerm(pcs, 0, HoldsFlag);
    SumBoundsTerm(pcs, 0, OwesCredit);
    SumAtMost(pcs, Inside, InGuard);
    SumAtMost(pcs, OwesDiscard, OwesPublication);
    SumAtMost(pcs, Undecided, Inside);
    SumAtMost(pcs, OwesPublication, Inside);
    SumAtMost(pcs, HoldsFlag, Inside);
  }

  lemma AdmissionKeeps(s: State, i: nat, choice: Choice)
    requires Invariant(s) && i < |s.producers| && InAdmission(s.producers[i])
    ensures Invariant(ProducerStep(s, i, choice))
  {
    var s' := ProducerStep(s, i, choice);
    SumsAfterMove(s.producers, i, s'.producers[i]);
    SumBoundsTerm(s.producers, i, Inside);
  }

  lemma RecordKeepsCounters(s: State, i: nat, choice: Choice)
    requires CountersAgree(s.counters, s.truth, Taken(s), s.producers)
    requires i < |s.producers| && InRecord(s.producers[i])
    ensures var s' := RecordStep(s, i, choice); CountersAgree(s'.counters, s'.truth, Taken(s'), s'.producers)
  {
    SumsAfterMove(s.producers, i, RecordStep(s, i, choice).producers[i]);
  }

  /** Counters only grow while a record is being made, so what observers have read stays consistent. */
  lemma RecordKeepsObservation(s: State, i: nat, choice: Choice)
    requires ObservationSound(s) && i < |s.producers| && InRecord(s.producers[i])
    ensures ObservationSound(RecordStep(s, i, choice))
  {
    var s' := RecordStep(s, i, choice);
    SumsAfterMove(s.producers, i, s'.producers[i]);
    assert Taken(s') >= Taken(s) && s'.observation == s.observation;
    assert s'.counters.rawAttempts >= s.counters.rawAttempts && s'.counters.discardCounter >= s.counters.discardCounter;
  }

  lemma {:induction false} PayloadsAppend(queue: seq<Message>, m: Message)
    ensures Payloads(queue + [m]) == Payloads(queue) + Payloads([m])
  {
    if queue == [] {
      assert queue + [m] == [m];
    } else {
      PayloadsAppend(queue[1..], m);
      assert (queue + [m])[1..] == queue[1..] + [m];
    }
  }

  lemma RecordKeepsBackend(s: State, i: nat, choice: Choice)
    requires BackendSound(s.backend) && i < |s.producers| && InRecord(s.producers[i])
    ensures BackendSound(RecordStep(s, i, choice).backend)
  {
    var pc := s.producers[i];
    if pc.Encoded? {
      PayloadsAppend(s.backend.queue, LogMessage(pc.payload));
    }
  }

  lemma RecordKeepsTermination(s: State, i: nat, choice: Choice)
    requires TerminationSound(s.backend, s.gate.lifecycle, s.control) && i < |s.producers| && InRecord(s.producers[i])
    requires s.gate.lifecycle == Started && !Quiet(s.control)
    ensures TerminationSound(RecordStep(s, i, choice).backend, s.gate.lifecycle, s.control)
  {
  }

  lemma RecordKeepsGate(s: State, i: nat, choice: Choice)
    requires i < |s.producers| && InRecord(s.producers[i])
    requires OneObserver(s.observation.flag, s.producers, s.control)
    requires LifetimesSound(s.gate, s.producers, s.control) && DepthsBounded(s)
    ensures var s' := RecordStep(s, i, choice);
      && s'.gate == s.gate && s'.control == s.control && s'.observation == s.observation
      && OneObserver(s'.observation.flag, s'.producers, s'.control)
      && LifetimesSound(s'.gate, s'.producers, s'.control) && DepthsBounded(s')
    ensures s.gate.lifecycle == Started && !Quiet(s.control)
  {
    SumsAfterMove(s.producers, i, RecordStep(s, i, choice).producers[i]);
    SumBoundsTerm(s.producers, i, Inside);
  }

  lemma RecordKeeps(s: State, i: nat, choice: Choice)
    requires Invariant(s) && i < |s.producers| && InRecord(s.producers[i])
    ensures Invariant(RecordStep(s, i, choice))
  {
    RecordKeepsCounters(s, i, choice);
    RecordKeepsObservation(s, i, choice);
    RecordKeepsBackend(s, i, choice);
    RecordKeepsGate(s, i, choice);
    RecordKeepsTermination(s, i, choice);
    assert RecordStep(s, i, choice).backend.worker == s.backend.worker;
  }

  /** What an observer's step does to the split, given that what it has read is consistent. */
  lemma ObserveKeepsSplit(b: Observation, c: Counters, taken: int, owed: int, o: ObserverPc)
    requires SplitSound(b, c, taken, owed + CreditOf(o)) && ObserverAgrees(o, b, c, taken)
    requires 0 <= owed && c.rawAttempts - c.discardCounter <= taken
    ensures var b', next := Observe(b, c, o), AfterObserve(b, c, o);
      && SplitSound(b', c, taken, owed + (if next.Some? then CreditOf(next.value) else 0))
      && (next.Some? ==> ObserverAgrees(next.value, b', c, taken))
  {
  }

  /** The counters leave room for whatever is read from them. */
  lemma CountersLeaveRoom(c: Counters, t: Truth, taken: int, pcs: seq<ProducerPc>)
    requires CountersAgree(c, t, taken, pcs)
    ensures c.rawAttempts - c.discardCounter <= taken
  {
    SumsNonNegative(pcs);
  }

  /** While `i` observes nobody else does. */
  lemma OnlyObserver(s: State, i: nat)
    requires OneObserver(s.observation.flag, s.producers, s.control) && i < |s.producers| && s.producers[i].Observing?
    ensures s.observation.flag && ControlObserver(s.control).None?
    ensures forall j | 0 <= j < |s.producers| && j != i :: !s.producers[j].Observing?
  {
    SumBoundsTerm(s.producers, i, HoldsFlag);
    forall j | 0 <= j < |s.producers| && j != i
      ensures !s.producers[j].Observing?
    {
      SumBoundsTwo(s.producers, if i < j then i else j, if i < j then j else i, HoldsFlag);
    }
  }

  /** Observing changes only the split and the observer's own place. */
  lemma ObservationFrame(s: State, i: nat)
    requires Invariant(s) && i < |s.producers| && InObservation(s.producers[i])
    ensures s.gate.lifecycle == Started && !Quiet(s.control)
    ensures var (observation, next) := ObservationStep(s, i); var pcs := s.producers[i := next];
      && CountersAgree(s.counters, s.truth, Taken(s), pcs)
      && LifetimesSound(s.gate, pcs, s.control)
      && Sum(pcs, HoldsFlag) == Sum(s.producers, HoldsFlag) - HoldsFlag(s.producers[i]) + HoldsFlag(next)
      && Sum(pcs, OwesCredit) == Sum(s.producers, OwesCredit) - OwesCredit(s.producers[i]) + OwesCredit(next)
      && (next.Observing? || next.Observed?)
  {
    var (_, next) := ObservationStep(s, i);
    SumsAfterMove(s.producers, i, next);
    SumBoundsTerm(s.producers, i, Inside);
  }

  lemma ObserverStepKeepsSplit(s: State, i: nat)
    requires Invariant(s) && i < |s.producers| && s.producers[i].Observing?
    ensures var (observation, next) := ObservationStep(s, i);
      var s' := s.(observation := observation, producers := s.producers[i := next]);
      ObservationSound(s') && OneObserver(observation.flag, s'.producers, s.control)
  {
    ObservationFrame(s, i);
    OnlyObserver(s, i);
    CountersLeaveRoom(s.counters, s.truth, Taken(s), s.producers);
    SumBoundsTerm(s.producers, i, OwesCredit);
    ObserveKeepsSplit(s.observation, s.counters, Taken(s), Owed(s) - CreditOf(s.producers[i].observer),
                      s.producers[i].observer);
  }

  lemma FlagStepKeepsSplit(s: State, i: nat)
    requires Invariant(s) && i < |s.producers| && s.producers[i].Published?
    ensures var (observation, next) := ObservationStep(s, i);
      var s' := s.(observation := observation, producers := s.producers[i := next]);
      ObservationSound(s') && OneObserver(observation.flag, s'.producers, s.control)
  {
    ObservationFrame(s, i);
    SumsNonNegative(s.producers);
  }

  lemma ObservationKeeps(s: State, i: nat, choice: Choice)
    requires Invariant(s) && i < |s.producers| && InObservation(s.producers[i])
    ensures Invariant(ProducerStep(s, i, choice))
  {
    ObservationFrame(s, i);
    if s.producers[i].Observing? {
      ObserverStepKeepsSplit(s, i);
    } else {
      FlagStepKeepsSplit(s, i);
    }
  }

  lemma DepthKeeps(s: State, i: nat, choice: Choice)
    requires Invariant(s) && i < |s.producers| && (s.producers[i].Observed? || s.producers[i].Measured?)
    ensures Invariant(ProducerStep(s, i, choice))
  {
    SumsAfterMove(s.producers, i, ProducerStep(s, i, choice).producers[i]);
  }

  lemma ProducerKeeps(s: State, i: nat, choice: Choice)
    requires Invariant(s) && i < |s.producers|
    ensures Invariant(ProducerStep(s, i, choice))
  {
    var pc := s.producers[i];
    if InAdmission(pc) {
      AdmissionKeeps(s, i, choice);
    } else if InRecord(pc) {
      RecordKeeps(s, i, choice);
    } else if InObservation(pc) {
      ObservationKeeps(s, i, choice);
    } else {
      DepthKeeps(s, i, choice);
    }
  }

  // ---------- Worker steps ----------

  /** A record is counted as the ledger counts it; a flush counts nothing. */
  lemma CalledCounts(k: Backend, call: Call)
    ensures var l, l' := k.ledger, Called(k, call).ledger; var refused := l.fileFailed && l.consoleFailed;
      && l'.consumed == (if call.ConsumeCall? && !refused then Min(l.consumed + 1, UINT64_MAX) else l.consumed)
      && l'.discarded == (if call.ConsumeCall? && refused then Min(l.discarded + 1, UINT64_MAX) else l.discarded)
  {
  }

  lemma WorkerKeepsBackend(k: Backend, outcome: Outcome, fileFlushed: bool, consoleFlushed: bool)
    requires BackendSound(k) && WorkerEnabled(k)
    ensures BackendSound(WorkerStep(k, outcome, fileFlushed, consoleFlushed))
  {
    WorkerKeepsOrder(k, outcome, fileFlushed, consoleFlushed);
    WorkerKeepsCounts(k, outcome, fileFlushed, consoleFlushed);
  }

  lemma WorkerKeepsOrder(k: Backend, outcome: Outcome, fileFlushed: bool, consoleFlushed: bool)
    requires InOrder(k) && WorkerEnabled(k)
    ensures InOrder(WorkerStep(k, outcome, fileFlushed, consoleFlushed))
  {
  }

  lemma WorkerKeepsCounts(k: Backend, outcome: Outcome, fileFlushed: bool, consoleFlushed: bool)
    requires CountedOnce(k) && WorkerEnabled(k)
    ensures CountedOnce(WorkerStep(k, outcome, fileFlushed, consoleFlushed))
  {
    CalledCounts(k, ConsumeCall(outcome));
    CalledCounts(k, FlushCall(fileFlushed, consoleFlushed));
  }

  lemma WorkerKeepsTermination(k: Backend, lifecycle: Lifecycle, control: ControlPc, outcome: Outcome,
                               fileFlushed: bool, consoleFlushed: bool)
    requires TerminationSound(k, lifecycle, control) && WorkerEnabled(k)
    requires control.ShutJoin? ==> lifecycle == Started
    ensures TerminationSound(WorkerStep(k, outcome, fileFlushed, consoleFlushed), lifecycle, control)
  {
    if k.worker == Waiting {
      var rest := k.queue[1..];
      if control.ShutJoin? && rest != [] {
        assert rest[|rest| - 1] == k.queue[|k.queue| - 1];
        assert k.queue[0] == k.queue[..|k.queue| - 1][0] && !k.queue[0].TerminateMessage?;
        assert rest[..|rest| - 1] == k.queue[..|k.queue| - 1][1..];
      } else if control.ShutJoin? {
        assert |k.queue| == 1;
      } else {
        assert NoTerminate(k.queue) && k.queue[0] in k.queue;
      }
    }
  }

  lemma WorkerKeeps(s: State, outcome: Outcome, fileFlushed: bool, consoleFlushed: bool)
    requires Invariant(s) && WorkerEnabled(s.backend)
    ensures Invariant(s.(backend := WorkerStep(s.backend, outcome, fileFlushed, consoleFlushed)))
  {
    WorkerKeepsBackend(s.backend, outcome, fileFlushed, consoleFlushed);
    WorkerKeepsTermination(s.backend, s.gate.lifecycle, s.control, outcome, fileFlushed, consoleFlushed);
    assert WorkerStep(s.backend, outcome, fileFlushed, consoleFlushed).accepted == s.backend.accepted;
    assert WorkerStep(s.backend, outcome, fileFlushed, consoleFlushed).capacity == s.backend.capacity;
  }

  // ---------- Control steps ----------

  /** Before Start nobody is inside, so its one step of set-up disturbs nothing. */
  lemma CallStartKeeps(s: State)
    requires Invariant(s) && s.control.Free? && s.gate.lifecycle == Created
    ensures Invariant(CallStep(s, CallStart))
  {
  }

  lemma CallThrowKeeps(s: State)
    requires Invariant(s) && s.control.Free? && s.gate.lifecycle == Created
    ensures Invariant(CallStep(s, Throw))
  {
    SumsNonNegative(s.producers);
  }

  lemma CallCaptureKeeps(s: State)
    requires Invariant(s) && s.control.Free?
    ensures Invariant(CallStep(s, CallCapture))
  {
  }

  lemma CallShutdownKeeps(s: State)
    requires Invariant(s) && s.control.Free?
    ensures Invariant(CallStep(s, CallShutdown))
  {
  }

  lemma CallKeeps(s: State, choice: Choice)
    requires Invariant(s) && s.control.Free? && Calling(choice)
    ensures Invariant(CallStep(s, choice))
  {
    match choice
    case CallStart => if s.gate.lifecycle == Created { CallStartKeeps(s); }
    case Throw => if s.gate.lifecycle == Created { CallThrowKeeps(s); }
    case CallCapture => CallCaptureKeeps(s);
    case CallShutdown => CallShutdownKeeps(s);
  }

  lemma StartPublishKeeps(s: State)
    requires Invariant(s) && s.control.StartPublish?
    ensures Invariant(s.(gate := s.gate.(accepting := true), control := Free))
  {
  }

  lemma CaptureReadKeeps(s: State)
    requires Invariant(s) && Capturing(s.control) && !s.control.CapturePool? && !s.control.CaptureObserving?
    ensures Invariant(CaptureStep(s))
  {
  }

  lemma CapturePoolKeeps(s: State)
    requires Invariant(s) && s.control.CapturePool?
    ensures Invariant(CaptureStep(s))
  {
    SumsNonNegative(s.producers);
  }

  lemma CaptureObservingKeeps(s: State)
    requires Invariant(s) && s.control.CaptureObserving?
    ensures Invariant(CaptureStep(s))
  {
    SumsNonNegative(s.producers);
    CountersLeaveRoom(s.counters, s.truth, Taken(s), s.producers);
    ControlIsOnlyObserver(s);
    ObserveKeepsSplit(s.observation, s.counters, Taken(s), Sum(s.producers, OwesCredit), s.control.observer);
  }

  lemma ControlIsOnlyObserver(s: State)
    requires OneObserver(s.observation.flag, s.producers, s.control) && ControlObserver(s.control).Some?
    ensures s.observation.flag && forall j | 0 <= j < |s.producers| :: !s.producers[j].Observing?
  {
    forall j | 0 <= j < |s.producers|
      ensures !s.producers[j].Observing?
    {
      SumBoundsTerm(s.producers, j, HoldsFlag);
    }
    SumsNonNegative(s.producers);
  }

  /** With no producer inside, everything published has been counted and the flag is free for Shutdown. */
  lemma QuietIsSettled(s: State)
    requires Invariant(s) && Quiet(s.control)
    ensures Sum(s.producers, Inside) == 0 && Sum(s.producers, HoldsFlag) == 0 && Sum(s.producers, OwesCredit) == 0
    ensures s.counters.rawAttempts == Taken(s) + s.truth.full && s.counters.discardCounter == s.truth.full
    ensures s.truth.attempts == s.truth.filters + Taken(s) + s.truth.full
    ensures ControlObserver(s.control).None? ==> !s.observation.flag
  {
    SumsNonNegative(s.producers);
    forall i | 0 <= i < |s.producers|
      ensures OwesCredit(s.producers[i]) == 0
    {
      SumBoundsTerm(s.producers, i, HoldsFlag);
    }
    SumWhenZero(s.producers, OwesCredit);
  }

  lemma ShutCloseKeeps(s: State, choice: Choice)
    requires Invariant(s) && s.control.ShutClose?
    ensures Invariant(ShutdownStep(s, choice, true, true))
  {
  }

  /** No active producer after closing: nobody is inside, and nobody can get inside any more. */
  lemma ShutWaitKeeps(s: State, choice: Choice)
    requires Invariant(s) && s.control.ShutWait?
    ensures Invariant(ShutdownStep(s, choice, true, true))
  {
    SumsNonNegative(s.producers);
    if s.gate.activeProducers == 0 && s.gate.lifecycle == Created {
      SumsNonNegative(s.producers);
    }
  }

  lemma ShutFlushKeeps(s: State, choice: Choice)
    requires Invariant(s) && s.control.ShutFlush? && ShutdownEnabled(s, choice)
    ensures Invariant(ShutdownStep(s, choice, true, true))
  {
    PayloadsAppend(s.backend.queue, FlushMessage);
  }

  /** Shutdown's own observation is never skipped, and its guard always passes. */
  lemma ShutdownObserves(s: State)
    requires Invariant(s)
    ensures s.control.ShutPool? ==> s.gate.pool && !s.observation.flag
    ensures s.control.ShutObserving? && s.control.observer.Compare? ==>
      s.control.observer.discards - s.observation.discards <= s.control.observer.attempts - s.observation.attempts
  {
    if s.control.ShutPool? || s.control.ShutObserving? {
      QuietIsSettled(s);
    }
  }

  lemma ShutPoolKeeps(s: State, choice: Choice)
    requires Invariant(s) && s.control.ShutPool?
    ensures Invariant(ShutdownStep(s, choice, true, true))
  {
    ShutdownObserves(s);
  }

  lemma ShutObservingKeeps(s: State, choice: Choice)
    requires Invariant(s) && s.control.ShutObserving?
    ensures Invariant(ShutdownStep(s, choice, true, true))
  {
    QuietIsSettled(s);
    ShutdownObserves(s);
    ControlIsOnlyObserver(s);
    ObserveKeepsSplit(s.observation, s.counters, Taken(s), 0, s.control.observer);
  }

  lemma ShutTerminateKeeps(s: State, choice: Choice)
    requires Invariant(s) && s.control.ShutTerminate? && ShutdownEnabled(s, choice)
    ensures Invariant(ShutdownStep(s, choice, true, true))
  {
    PayloadsAppend(s.backend.queue, TerminateMessage);
    assert (s.backend.queue + [TerminateMessage])[..|s.backend.queue|] == s.backend.queue;
  }

  lemma ShutTailKeeps(s: State, choice: Choice, fileFlushed: bool, consoleFlushed: bool)
    requires Invariant(s) && (s.control.ShutJoin? || s.control.ShutSnapshot? || s.control.ShutReset?)
    requires ShutdownEnabled(s, choice)
    ensures Invariant(ShutdownStep(s, choice, fileFlushed, consoleFlushed))
  {
  }

  lemma ControlKeeps(s: State, choice: Choice, fileFlushed: bool, consoleFlushed: bool)
    requires Invariant(s) && Enabled(s, Control(choice, fileFlushed, consoleFlushed))
    ensures Invariant(Next(s, Control(choice, fileFlushed, consoleFlushed)))
  {
    match s.control
    case Free => CallKeeps(s, choice);
    case StartPublish => StartPublishKeeps(s);
    case CapturePool(_, _) => CapturePoolKeeps(s);
    case CaptureObserving(_, _, _) => CaptureObservingKeeps(s);
    case ShutClose => ShutCloseKeeps(s, choice);
    case ShutWait => ShutWaitKeeps(s, choice);
    case ShutFlush => ShutFlushKeeps(s, choice);
    case ShutPool(_) => ShutPoolKeeps(s, choice);
    case ShutObserving(_, _) => ShutObservingKeeps(s, choice);
    case ShutTerminate(_) => ShutTerminateKeeps(s, choice);
    case ShutJoin(_) => ShutTailKeeps(s, choice, fileFlushed, consoleFlushed);
    case ShutSnapshot(_) => ShutTailKeeps(s, choice, fileFlushed, consoleFlushed);
    case ShutReset => ShutTailKeeps(s, choice, fileFlushed, consoleFlushed);
    case _ => CaptureReadKeeps(s);
  }

  lemma StepKeeps(s: State, a: Action)
    requires Invariant(s) && Enabled(s, a)
    ensures Invariant(Next(s, a))
  {
    match a
    case Produce(i, choice) => ProducerKeeps(s, i, choice);
    case Control(choice, fileFlushed, consoleFlushed) => ControlKeeps(s, choice, fileFlushed, consoleFlushed);
    case Work(outcome, fileFlushed, consoleFlushed) => WorkerKeeps(s, outcome, fileFlushed, consoleFlushed);
  }

  lemma InitialHolds(s: State)
    requires Initial(s)
    ensures Invariant(s)
  {
    SumWhenZero(s.producers, InGuard);
    SumWhenZero(s.producers, Inside);
    SumWhenZero(s.producers, Undecided);
    SumWhenZero(s.producers, OwesDiscard);
    SumWhenZero(s.producers, OwesPublication);
    SumWhenZero(s.producers, HoldsFlag);
    SumWhenZero(s.producers, OwesCredit);
  }

  /** Every state of every interleaving satisfies the invariant. */
  lemma {:induction false} RunKeeps(s: State, actions: seq<Action>)
    requires Initial(s) && Run(s, actions).Some?
    ensures Invariant(Run(s, actions).value)
  {
    if actions == [] {
      InitialHolds(s);
    } else {
      var earlier := actions[..|actions| - 1];
      RunKeeps(s, earlier);
      StepKeeps(Run(s, earlier).value, actions[|actions| - 1]);
    }
  }
}
