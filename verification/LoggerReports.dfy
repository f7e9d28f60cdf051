/** What a health report says about what really happened, and that Shutdown flushes behind the last record. */
module LoggerReports {
  import opened Prelude
  import opened FanoutSink
  import opened LoggerMachine
  import opened LoggerInvariant
  import opened LoggerTheorems
  import opened LoggerSnapshots
  import opened Sums

  // ---------- The fan-out's calls ----------

  /** The ledger is what the calls made of it, one call for each record handled. */
  ghost predicate CallsSound(k: Backend) {
    var h := k.history;
    && k.ledger == AfterRun(InitialLedger(h.hasFile, h.hasConsole), h.calls)
    && Records(h.calls) == |k.processed| && k.discards == RefusedRecords(h.hasFile, h.hasConsole, h.calls)
  }

  lemma CalledIsRun(k: Backend, call: Call)
    requires CallsSound(k)
    ensures var h, k' := k.history, Called(k, call);
      && k'.ledger == AfterRun(InitialLedger(h.hasFile, h.hasConsole), k'.history.calls)
      && Records(k'.history.calls) == |k.processed| + (if call.ConsumeCall? then 1 else 0)
      && RefusedRecords(h.hasFile, h.hasConsole, k'.history.calls)
         == k.discards + (if call.ConsumeCall? && k.ledger.fileFailed && k.ledger.consoleFailed then 1 else 0)
  {
    var h := k.history;
    assert (h.calls + [call])[..|h.calls|] == h.calls;
    LedgerFollowsCalls(h.hasFile, h.hasConsole, h.calls);
  }

  lemma WorkerKeepsCalls(k: Backend, outcome: Outcome, fileFlushed: bool, consoleFlushed: bool)
    requires CallsSound(k) && WorkerEnabled(k)
    ensures CallsSound(WorkerStep(k, outcome, fileFlushed, consoleFlushed))
  {
    CalledIsRun(k, ConsumeCall(outcome));
    CalledIsRun(k, FlushCall(fileFlushed, consoleFlushed));
  }

  // ---------- The flush behind the last record ----------

  /** The last call was a flush. */
  predicate Flushed(calls: seq<Call>) {
    calls != [] && calls[|calls| - 1].FlushCall?
  }

  /** Once the messages are handled the last call is a flush. */
  predicate WillBeFlushed(flushed: bool, pending: seq<Message>)
    decreases |pending|
  {
    if pending == [] then flushed
    else WillBeFlushed(!pending[0].LogMessage? && (flushed || pending[0].FlushMessage?), pending[1..])
  }

  lemma {:induction false} PostedLast(flushed: bool, pending: seq<Message>, m: Message)
    requires !m.LogMessage?
    ensures WillBeFlushed(flushed, pending + [m]) <==> m.FlushMessage? || WillBeFlushed(flushed, pending)
    decreases |pending|
  {
    if pending == [] {
      assert pending + [m] == [m] && [m][1..] == [];
    } else {
      PostedLast(!pending[0].LogMessage? && (flushed || pending[0].FlushMessage?), pending[1..], m);
      assert (pending + [m])[1..] == pending[1..] + [m];
    }
  }

  /** What the worker has in hand and what waits behind it. */
  function Pending(k: Backend): seq<Message> {
    (if k.worker.Handling? then [k.worker.message] else []) + k.queue
  }

  ghost predicate FlushIsBehind(k: Backend) {
    WillBeFlushed(Flushed(k.history.calls), Pending(k))
  }

  /** Shutdown has posted its flush. */
  predicate FlushPosted(c: ControlPc) {
    (c.ShutPool? || c.ShutObserving? || c.ShutTerminate? || c.ShutJoin? || c.ShutSnapshot?) && c.flushPosted
  }

  ghost predicate FlushSound(s: State) {
    && (FlushPosted(s.control) ==> FlushIsBehind(s.backend))
    && (s.control.ShutReset? || s.gate.lifecycle == Stopped ==>
          s.backend.worker == NoWorker || Flushed(s.backend.history.calls))
  }

  lemma FirstHandled(flushed: bool, m: Message, rest: seq<Message>)
    ensures WillBeFlushed(flushed, [m] + rest)
         == WillBeFlushed(!m.LogMessage? && (flushed || m.FlushMessage?), rest)
  {
    assert ([m] + rest)[1..] == rest;
  }

  lemma WorkerCalls(k: Backend, outcome: Outcome, fileFlushed: bool, consoleFlushed: bool)
    requires k.worker.Handling?
    ensures var k' := WorkerStep(k, outcome, fileFlushed, consoleFlushed);
      && k'.queue == k.queue && !k'.worker.Handling?
      && Flushed(k'.history.calls)
         == (!k.worker.message.LogMessage? && (Flushed(k.history.calls) || k.worker.message.FlushMessage?))
  {
  }

  lemma WorkerKeepsFlushBehind(k: Backend, outcome: Outcome, fileFlushed: bool, consoleFlushed: bool)
    requires WorkerEnabled(k) && FlushIsBehind(k)
    ensures FlushIsBehind(WorkerStep(k, outcome, fileFlushed, consoleFlushed))
  {
    if k.worker.Handling? {
      FirstHandled(Flushed(k.history.calls), k.worker.message, k.queue);
      WorkerCalls(k, outcome, fileFlushed, consoleFlushed);
      assert [] + k.queue == k.queue;
    } else {
      assert [k.queue[0]] + k.queue[1..] == k.queue == Pending(k);
    }
  }

  lemma MessagePosted(k: Backend, m: Message)
    requires !m.LogMessage?
    ensures FlushIsBehind(k.(queue := k.queue + [m])) <==> m.FlushMessage? || FlushIsBehind(k)
  {
    PostedLast(Flushed(k.history.calls), Pending(k), m);
    assert Pending(k) + [m] == Pending(k.(queue := k.queue + [m]));
  }

  /** The steps of Shutdown that leave the queue and the fan-out alone. */
  lemma QuietStepKeepsFlush(s: State, choice: Choice, fileFlushed: bool, consoleFlushed: bool)
    requires Invariant(s) && FlushSound(s) && ShuttingDown(s.control) && ShutdownEnabled(s, choice)
    requires !s.control.ShutFlush? && !s.control.ShutTerminate? && !s.control.ShutSnapshot?
    ensures FlushSound(ShutdownStep(s, choice, fileFlushed, consoleFlushed))
  {
    assert ShutdownStep(s, choice, fileFlushed, consoleFlushed).backend == s.backend;
  }

  lemma SnapshotKeepsFlush(s: State, choice: Choice, fileFlushed: bool, consoleFlushed: bool)
    requires Invariant(s) && FlushSound(s) && s.control.ShutSnapshot?
    ensures FlushSound(ShutdownStep(s, choice, fileFlushed, consoleFlushed))
  {
    assert s.backend.worker != NoWorker ==> Pending(s.backend) == [];
  }

  lemma ControlKeepsFlush(s: State, choice: Choice, fileFlushed: bool, consoleFlushed: bool)
    requires Invariant(s) && FlushSound(s) && ShuttingDown(s.control) && ShutdownEnabled(s, choice)
    ensures FlushSound(ShutdownStep(s, choice, fileFlushed, consoleFlushed))
  {
    match s.control
    case ShutFlush => MessagePosted(s.backend, FlushMessage);
    case ShutTerminate(_) => MessagePosted(s.backend, TerminateMessage);
    case ShutSnapshot(_) => SnapshotKeepsFlush(s, choice, fileFlushed, consoleFlushed);
    case _ => QuietStepKeepsFlush(s, choice, fileFlushed, consoleFlushed);
  }

  lemma ControlKeepsCalls(s: State, choice: Choice, fileFlushed: bool, consoleFlushed: bool)
    requires CallsSound(s.backend) && ShuttingDown(s.control)
    ensures CallsSound(ShutdownStep(s, choice, fileFlushed, consoleFlushed).backend)
  {
    if s.control.ShutSnapshot? {
      CalledIsRun(s.backend, FlushCall(fileFlushed, consoleFlushed));
    } else {
      var k' := ShutdownStep(s, choice, fileFlushed, consoleFlushed).backend;
      assert k' == s.backend.(queue := k'.queue);
    }
  }

  // ---------- Every run ----------

  ghost predicate HistorySound(s: State) {
    CallsSound(s.backend) && FlushSound(s)
  }

  /** A producer reaches the queue only while Shutdown has not posted its flush. */
  lemma ProducerKeepsHistory(s: State, i: nat, choice: Choice)
    requires Invariant(s) && HistorySound(s) && i < |s.producers|
    ensures HistorySound(ProducerStep(s, i, choice))
  {
    SumBoundsTerm(s.producers, i, Inside);
    var s' := ProducerStep(s, i, choice);
    assert s'.control == s.control && s'.gate.lifecycle == s.gate.lifecycle;
    assert s'.backend == s.backend.(queue := s'.backend.queue, accepted := s'.backend.accepted);
    assert FlushPosted(s.control) ==> s'.backend == s.backend;
  }

  lemma ControlKeepsHistory(s: State, choice: Choice, fileFlushed: bool, consoleFlushed: bool)
    requires Invariant(s) && HistorySound(s) && Enabled(s, Control(choice, fileFlushed, consoleFlushed))
    ensures HistorySound(Next(s, Control(choice, fileFlushed, consoleFlushed)))
  {
    if ShuttingDown(s.control) {
      ControlKeepsCalls(s, choice, fileFlushed, consoleFlushed);
      ControlKeepsFlush(s, choice, fileFlushed, consoleFlushed);
    } else if Capturing(s.control) {
      CaptureKeepsHistory(s);
    } else if s.control.Free? {
      CallKeepsHistory(s, choice);
    }
  }

  /** Only Start touches the backend, and a Start that throws stops a logger that never had a worker. */
  lemma CallKeepsHistory(s: State, choice: Choice)
    requires HistorySound(s) && s.control.Free? && Calling(choice)
    requires s.gate.lifecycle == Created ==> s.backend.worker == NoWorker
    ensures HistorySound(CallStep(s, choice))
  {
    var k' := CallStep(s, choice).backend;
    assert k' == s.backend.(worker := k'.worker);
  }

  lemma CaptureKeepsHistory(s: State)
    requires HistorySound(s) && Capturing(s.control)
    ensures HistorySound(CaptureStep(s))
  {
    assert CaptureStep(s).backend == s.backend && CaptureStep(s).gate == s.gate;
  }

  lemma StepKeepsHistory(s: State, a: Action)
    requires Invariant(s) && HistorySound(s) && Enabled(s, a)
    ensures HistorySound(Next(s, a))
  {
    match a
    case Produce(i, choice) => ProducerKeepsHistory(s, i, choice);
    case Control(choice, fileFlushed, consoleFlushed) => ControlKeepsHistory(s, choice, fileFlushed, consoleFlushed);
    case Work(outcome, fileFlushed, consoleFlushed) =>
      WorkerKeepsCalls(s.backend, outcome, fileFlushed, consoleFlushed);
      if FlushPosted(s.control) {
        WorkerKeepsFlushBehind(s.backend, outcome, fileFlushed, consoleFlushed);
      }
  }

  lemma {:induction false} RunKeepsHistory(s: State, actions: seq<Action>)
    requires Initial(s) && Run(s, actions).Some?
    ensures HistorySound(Run(s, actions).value)
  {
    if actions != [] {
      var earlier := actions[..|actions| - 1];
      RunKeepsHistory(s, earlier);
      RunKeeps(s, earlier);
      StepKeepsHistory(Run(s, earlier).value, actions[|actions| - 1]);
    }
  }

  lemma ReachableHistory(s: State)
    requires Reachable(s)
    ensures HistorySound(s)
  {
    var start: State, actions: seq<Action> :| Initial(start) && Run(start, actions) == Some(s);
    RunKeepsHistory(start, actions);
  }

  /** When Shutdown has returned, the outputs were flushed after the last of the records the queue ever took. */
  lemma FlushedBehindLastRecord(s: State)
    requires Reachable(s) && s.gate.lifecycle == Stopped && s.backend.worker != NoWorker
    ensures var calls := s.backend.history.calls;
      && calls != [] && calls[|calls| - 1].FlushCall?
      && Records(calls[..|calls| - 1]) == |s.backend.accepted|
  {
    ReachableHistory(s);
    EveryAcceptedRecordHandled(s);
  }

  /**
   Whenever CaptureHealth ends, before Start, while it runs or after Shutdown: the worker's part of its report is what
   the worker has done by then, and an output is reported failed exactly when it is missing or a call failed on it.
   */
  lemma ReportIsTrue(s: State, a: Action)
    requires Reachable(s) && s.control.CaptureSinks? && a.Control? && Enabled(s, a)
    ensures Next(s, a).control.Free? && Next(s, a).health.Some?
    ensures var h, k := Next(s, a).health.value, s.backend;
      && (h.started <==> s.gate.lifecycle == Started)
      && h.consumed == Min(k.consumptions, UINT64_MAX) && h.discarded == Min(k.discards, UINT64_MAX)
      && k.consumptions + k.discards == |k.processed|
      && k.discards == RefusedRecords(k.history.hasFile, k.history.hasConsole, k.history.calls)
      && (h.fileFailed <==> IsBroken(k.history.hasFile, k.history.calls, File))
      && (h.consoleFailed <==> IsBroken(k.history.hasConsole, k.history.calls, Console))
      && h.queueDepth == |k.queue| && h.maximumDepth == s.maximumDepth
  {
    ReachableHolds(s);
    ReachableHistory(s);
    var k := s.backend;
    LedgerFollowsCalls(k.history.hasFile, k.history.hasConsole, k.history.calls);
  }

  // ---------- The depth ----------

  /** The state after the first `k` actions of a run. */
  function StateAt(start: State, actions: seq<Action>, k: nat): Option<State>
    requires k <= |actions|
  {
    Run(start, actions[..k])
  }

  /** The run's action `k` has producer `i` ask the queue for its size, which is `depth`. */
  ghost predicate AsksDepth(start: State, actions: seq<Action>, k: nat, i: nat, depth: nat) {
    && k < |actions| && StateAt(start, actions, k).Some? && actions[k].Produce? && actions[k].producer == i
    && var s := StateAt(start, actions, k).value;
       i < |s.producers| && s.producers[i].Observed? && |s.backend.queue| == depth
  }

  ghost predicate DepthWasAsked(start: State, actions: seq<Action>, depth: nat) {
    exists k: nat, i: nat :: AsksDepth(start, actions, k, i, depth)
  }

  /** What a producer has measured is what the queue held when it asked, and so is the maximum. */
  ghost predicate DepthsWereAsked(start: State, actions: seq<Action>, s: State) {
    && (s.maximumDepth == 0 || DepthWasAsked(start, actions, s.maximumDepth))
    && forall i | 0 <= i < |s.producers| && s.producers[i].Measured? ::
         DepthWasAsked(start, actions, s.producers[i].depth)
  }

  /** Every depth asked for is within the maximum, or its producer has not stored it yet. */
  ghost predicate DepthsAreKept(start: State, actions: seq<Action>, s: State) {
    forall k: nat, i: nat, depth: nat | AsksDepth(start, actions, k, i, depth) ::
      depth <= s.maximumDepth || (i < |s.producers| && s.producers[i] == Measured(depth))
  }

  lemma AskedBefore(start: State, actions: seq<Action>, k: nat, i: nat, depth: nat)
    requires actions != []
    ensures var front := actions[..|actions| - 1];
      k < |front| ==> (AsksDepth(start, actions, k, i, depth) <==> AsksDepth(start, front, k, i, depth))
  {
    if k < |actions| - 1 {
      assert actions[..|actions| - 1][..k] == actions[..k];
    }
  }

  /** What one action does to the depths. */
  lemma StepMovesDepth(s: State, a: Action)
    requires Enabled(s, a)
    ensures var s' := Next(s, a);
      && |s'.producers| == |s.producers| && s'.maximumDepth >= s.maximumDepth
      && (s'.maximumDepth != s.maximumDepth ==>
            a.Produce? && s.producers[a.producer] == Measured(s'.maximumDepth))
      && (forall i | 0 <= i < |s.producers| && !(a.Produce? && a.producer == i) :: s'.producers[i] == s.producers[i])
    ensures var s' := Next(s, a); a.Produce? ==>
      && (s'.producers[a.producer].Measured? ==>
            s.producers[a.producer].Observed? && s'.producers[a.producer].depth == |s.backend.queue|)
      && (s.producers[a.producer].Observed? ==> s'.producers[a.producer] == Measured(|s.backend.queue|))
      && (s.producers[a.producer].Measured? ==> s'.maximumDepth >= s.producers[a.producer].depth)
  {
  }

  lemma StepKeepsAsked(start: State, actions: seq<Action>, s: State, s': State)
    requires actions != []
    requires var front, a := actions[..|actions| - 1], actions[|actions| - 1];
      && Run(start, front) == Some(s) && Enabled(s, a) && s' == Next(s, a) && DepthsWereAsked(start, front, s)
    ensures DepthsWereAsked(start, actions, s')
  {
    var front, a := actions[..|actions| - 1], actions[|actions| - 1];
    StepMovesDepth(s, a);
    forall depth: nat | DepthWasAsked(start, front, depth)
      ensures DepthWasAsked(start, actions, depth)
    {
      var k: nat, i: nat :| AsksDepth(start, front, k, i, depth);
      AskedBefore(start, actions, k, i, depth);
    }
    if a.Produce? && s.producers[a.producer].Observed? {
      assert AsksDepth(start, actions, |front|, a.producer, |s.backend.queue|);
    }
  }

  /** An answer is stored, or its producer still holds it, or it is the one just asked for. */
  lemma AnswerIsKept(s: State, a: Action, i: nat, depth: nat)
    requires Enabled(s, a)
    requires || depth <= s.maximumDepth || (i < |s.producers| && s.producers[i] == Measured(depth))
             || (a.Produce? && a.producer == i && s.producers[i].Observed? && |s.backend.queue| == depth)
    ensures var s' := Next(s, a);
      depth <= s'.maximumDepth || (i < |s'.producers| && s'.producers[i] == Measured(depth))
  {
    StepMovesDepth(s, a);
  }

  lemma StepKeepsKept(start: State, actions: seq<Action>, s: State, s': State)
    requires actions != []
    requires var front, a := actions[..|actions| - 1], actions[|actions| - 1];
      && Run(start, front) == Some(s) && Enabled(s, a) && s' == Next(s, a) && DepthsAreKept(start, front, s)
    ensures DepthsAreKept(start, actions, s')
  {
    var front, a := actions[..|actions| - 1], actions[|actions| - 1];
    forall k: nat, i: nat, depth: nat | AsksDepth(start, actions, k, i, depth)
      ensures depth <= s'.maximumDepth || (i < |s'.producers| && s'.producers[i] == Measured(depth))
    {
      if k < |front| {
        AskedBefore(start, actions, k, i, depth);
      } else {
        assert actions[..k] == front;
      }
      AnswerIsKept(s, a, i, depth);
    }
  }

  /**
   The maximum depth is the largest queue length any producer asked for, up to the producers that have asked and not
   stored the answer yet.
   */
  lemma {:induction false} MaximumDepthIsPeak(start: State, actions: seq<Action>)
    requires Initial(start) && Run(start, actions).Some?
    ensures DepthsWereAsked(start, actions, Run(start, actions).value)
    ensures DepthsAreKept(start, actions, Run(start, actions).value)
  {
    if actions != [] {
      var front := actions[..|actions| - 1];
      MaximumDepthIsPeak(start, front);
      StepKeepsAsked(start, actions, Run(start, front).value, Run(start, actions).value);
      StepKeepsKept(start, actions, Run(start, front).value, Run(start, actions).value);
    }
  }

  // ---------- Snapshots while anything moves ----------

  /** Every number a snapshot reports is at least as large later. */
  ghost predicate NoneFell(s: State, s': State) {
    && s.counters.attempted <= s'.counters.attempted && s.counters.filtered <= s'.counters.filtered
    && s.observation.dropped <= s'.observation.dropped && s.observation.enqueued <= s'.observation.enqueued
    && s.backend.consumptions <= s'.backend.consumptions && s.backend.discards <= s'.backend.discards
  }

  lemma ObserverRaises(b: Observation, c: Counters, taken: int, owed: int, o: ObserverPc)
    requires ObserverAgrees(o, b, c, taken) && SplitSound(b, c, taken, owed)
    ensures var b' := Observe(b, c, o); b.dropped <= b'.dropped && b.enqueued <= b'.enqueued
  {
  }

  lemma RecordRaises(s: State, i: nat, choice: Choice)
    requires i < |s.producers| && InRecord(s.producers[i])
    requires s.counters.attempted <= UINT64_MAX && s.counters.filtered <= UINT64_MAX
    ensures NoneFell(s, RecordStep(s, i, choice))
  {
    assert RecordStep(s, i, choice).observation == s.observation;
  }

  lemma ObservationRaises(s: State, i: nat)
    requires Invariant(s) && i < |s.producers| && InObservation(s.producers[i])
    ensures var (b, _) := ObservationStep(s, i);
      s.observation.dropped <= b.dropped && s.observation.enqueued <= b.enqueued
  {
    if s.producers[i].Observing? {
      ObserverRaises(s.observation, s.counters, Taken(s), Owed(s), s.producers[i].observer);
    }
  }

  lemma ProducersRaise(s: State, i: nat, choice: Choice)
    requires Invariant(s) && i < |s.producers|
    ensures NoneFell(s, ProducerStep(s, i, choice))
  {
    if InRecord(s.producers[i]) {
      RecordRaises(s, i, choice);
    } else if InObservation(s.producers[i]) {
      ObservationRaises(s, i);
    }
  }

  lemma CaptureRaises(s: State)
    requires Invariant(s) && Capturing(s.control)
    ensures NoneFell(s, CaptureStep(s))
  {
    if s.control.CaptureObserving? {
      ObserverRaises(s.observation, s.counters, Taken(s), Owed(s), s.control.observer);
    }
    assert CaptureStep(s).counters == s.counters && CaptureStep(s).backend == s.backend;
  }

  lemma ShutdownRaises(s: State, choice: Choice, fileFlushed: bool, consoleFlushed: bool)
    requires Invariant(s) && ShuttingDown(s.control)
    ensures NoneFell(s, ShutdownStep(s, choice, fileFlushed, consoleFlushed))
  {
    if s.control.ShutObserving? {
      ObserverRaises(s.observation, s.counters, Taken(s), Owed(s), s.control.observer);
    }
    assert ShutdownStep(s, choice, fileFlushed, consoleFlushed).counters == s.counters;
  }

  lemma ControlRaises(s: State, choice: Choice, fileFlushed: bool, consoleFlushed: bool)
    requires Invariant(s) && Enabled(s, Control(choice, fileFlushed, consoleFlushed))
    ensures NoneFell(s, Next(s, Control(choice, fileFlushed, consoleFlushed)))
  {
    if Capturing(s.control) {
      CaptureRaises(s);
    } else if ShuttingDown(s.control) {
      ShutdownRaises(s, choice, fileFlushed, consoleFlushed);
    }
  }

  /** No step of any thread ever lowers a published counter. */
  lemma CountersOnlyGrow(s: State, a: Action)
    requires Invariant(s) && Enabled(s, a)
    ensures NoneFell(s, Next(s, a))
  {
    match a
    case Produce(i, choice) => ProducersRaise(s, i, choice);
    case Control(choice, fileFlushed, consoleFlushed) => ControlRaises(s, choice, fileFlushed, consoleFlushed);
    case Work(_, _, _) =>
  }

  /** What a capture begun in `s` has read so far lies between the counters then and now. */
  ghost predicate ReadsWithin(s: State, t: State)
    requires Capturing(t.control)
  {
    && t.control.attempted == s.counters.attempted
    && (!t.control.CaptureFiltered? ==> s.counters.filtered <= t.control.filtered <= t.counters.filtered)
    && (t.control.CaptureEnqueued? || t.control.CaptureSinks? ==>
          s.observation.dropped <= t.control.dropped <= t.observation.dropped)
    && (t.control.CaptureSinks? ==> s.observation.enqueued <= t.control.enqueued <= t.observation.enqueued)
  }

  /** The report lies between what was true as the capture began and what is true as it ends. */
  ghost predicate ReportsWithin(s: State, t: State, h: Health) {
    && h.attempted == s.counters.attempted
    && s.counters.filtered <= h.filtered <= t.counters.filtered
    && s.observation.dropped <= h.dropped <= t.observation.dropped
    && s.observation.enqueued <= h.enqueued <= t.observation.enqueued
    && Min(s.backend.consumptions, UINT64_MAX) <= h.consumed <= Min(t.backend.consumptions, UINT64_MAX)
    && Min(s.backend.discards, UINT64_MAX) <= h.discarded <= Min(t.backend.discards, UINT64_MAX)
  }

  /** Where the actions of a capture leave the logger. */
  function CaptureEnd(t: State, actions: seq<Action>): State
    decreases |actions|
  {
    if t.control.Free? || actions == [] || !Enabled(t, actions[0]) then t
    else CaptureEnd(Next(t, actions[0]), actions[1..])
  }

  lemma CaptureStepReadsWithin(s: State, t: State, a: Action)
    requires Invariant(t) && Capturing(t.control) && Enabled(t, a) && NoneFell(s, t) && ReadsWithin(s, t)
    requires NoneFell(t, Next(t, a))
    ensures Capturing(Next(t, a).control) ==> ReadsWithin(s, Next(t, a))
  {
    if a.Produce? {
      assert Next(t, a).control == t.control;
    }
  }

  lemma LastReadIsWithin(s: State, t: State, a: Action)
    requires Reachable(t) && Capturing(t.control) && Enabled(t, a) && Next(t, a).control.Free?
    requires NoneFell(s, t) && ReadsWithin(s, t) && NoneFell(t, Next(t, a))
    ensures Next(t, a).health.Some? && ReportsWithin(s, Next(t, a), Next(t, a).health.value)
  {
    ReportIsTrue(t, a);
  }

  /**
   Whatever the other threads do while a snapshot is taken, each number it reports lies between its value as the
   snapshot began and its value as it ended.
   */
  lemma {:induction false} SnapshotIsWithinRun(s: State, t: State, actions: seq<Action>, h: Health)
    requires Reachable(t) && Capturing(t.control) && NoneFell(s, t) && ReadsWithin(s, t) && CaptureEnds(t, actions, h)
    ensures ReportsWithin(s, CaptureEnd(t, actions), h)
    decreases |actions|
  {
    var a := actions[0];
    ReachableHolds(t);
    ReachableNext(t, a);
    CountersOnlyGrow(t, a);
    if Next(t, a).control.Free? {
      LastReadIsWithin(s, t, a);
    } else {
      CaptureStepReadsWithin(s, t, a);
      SnapshotIsWithinRun(s, Next(t, a), actions[1..], h);
    }
  }

  /** For every snapshot, from the call on. */
  lemma EverySnapshotIsWithinRun(s: State, actions: seq<Action>, h: Health)
    requires Reachable(s) && s.control.Free? && CaptureEnds(CallStep(s, CallCapture), actions, h)
    ensures ReportsWithin(s, CaptureEnd(CallStep(s, CallCapture), actions), h)
  {
    ReachableNext(s, Control(CallCapture, true, true));
    SnapshotIsWithinRun(s, CallStep(s, CallCapture), actions, h);
  }
}
