/** What the logger promises over every interleaving, and where it promises less than its tests suggest. */
module LoggerTheorems {
  import opened Prelude
  import opened FanoutSink
  import opened LoggerMachine
  import opened LoggerInvariant
  import opened Sums

  /** Some interleaving leads from a fresh logger to `s`. */
  ghost predicate Reachable(s: State) {
    exists start: State, actions: seq<Action> :: Initial(start) && Run(start, actions) == Some(s)
  }

  lemma ReachableHolds(s: State)
    requires Reachable(s)
    ensures Invariant(s)
  {
    var start: State, actions: seq<Action> :| Initial(start) && Run(start, actions) == Some(s);
    RunKeeps(start, actions);
  }

  lemma ReachableNext(s: State, a: Action)
    requires Reachable(s) && Enabled(s, a)
    ensures Reachable(Next(s, a))
  {
    var start: State, actions: seq<Action> :| Initial(start) && Run(start, actions) == Some(s);
    assert (actions + [a])[..|actions|] == actions;
    assert Run(start, actions + [a]) == Some(Next(s, a));
  }

  // ---------- Safety ----------

  /** About to use logger_, threadPool_ or the queue behind them. */
  predicate UsesBackend(pc: ProducerPc) {
    pc.Encoded? || pc.Discarding? || pc.Published? || pc.Observing? || pc.Observed?
  }

  /**
   No producer ever uses the logger or its thread pool after Shutdown reset them, however many producers there are.
   */
  lemma NoUseAfterReset(s: State, i: nat)
    requires Reachable(s) && i < |s.producers| && UsesBackend(s.producers[i])
    ensures s.gate.logger && s.gate.pool && s.gate.sink
  {
    ReachableHolds(s);
    SumBoundsTerm(s.producers, i, Inside);
  }

  /** At every moment the published counters understate: nothing is reported that did not happen. */
  lemma CountersNeverOverstate(s: State)
    requires Reachable(s)
    ensures s.observation.enqueued <= |s.backend.accepted| + s.truth.lost
    ensures s.observation.dropped <= s.truth.full
    ensures s.truth.filters + s.observation.dropped + s.observation.enqueued <= s.truth.attempts
    ensures s.maximumDepth <= s.backend.capacity
  {
    ReachableHolds(s);
    SumsNonNegative(s.producers);
    OwedNonNegative(s);
  }

  lemma OwedNonNegative(s: State)
    ensures Owed(s) >= 0
  {
    SumsNonNegative(s.producers);
  }

  /** No counter reached its ceiling. */
  predicate Unsaturated(s: State) {
    s.truth.attempts < UINT64_MAX
  }

  /** After Shutdown the counters reconcile, whatever was lost on the way. */
  lemma ReconciledAtRest(s: State)
    requires Reachable(s) && s.gate.lifecycle == Stopped && Unsaturated(s)
    ensures s.counters.attempted == s.counters.filtered + s.observation.enqueued + s.observation.dropped
    ensures s.observation.dropped == s.truth.full
    ensures s.observation.enqueued == |s.backend.accepted| + s.truth.lost
  {
    ReachableHolds(s);
    StoppedIsSettled(s);
  }

  lemma StoppedIsSettled(s: State)
    requires Invariant(s) && s.gate.lifecycle == Stopped
    ensures s.truth.attempts == s.truth.filters + Taken(s) + s.truth.full
    ensures s.observation.discards == s.truth.full && s.observation.attempts == Taken(s) + s.truth.full
    ensures s.observation.credited == Taken(s)
  {
    SumsNonNegative(s.producers);
    forall i | 0 <= i < |s.producers|
      ensures OwesCredit(s.producers[i]) == 0
    {
      SumBoundsTerm(s.producers, i, Inside);
    }
    SumWhenZero(s.producers, OwesCredit);
  }

  // ---------- The lifecycle ----------

  /** The one step that starts the logger, those that stop it, and those that open and close admission. */
  lemma LifecycleMovesOnlyHere(s: State, a: Action)
    requires Reachable(s) && Enabled(s, a)
    ensures var g, g' := s.gate, Next(s, a).gate; var calls := a.Control? && s.control.Free? && g.lifecycle == Created;
      && (g'.lifecycle == Started != g.lifecycle <==> calls && a.choice == CallStart)
      && (g'.lifecycle == Stopped != g.lifecycle <==>
            (calls && a.choice == Throw) || (a.Control? && s.control.ShutReset?))
      && (g'.accepting && !g.accepting <==> a.Control? && s.control.StartPublish?)
      && (g.accepting && !g'.accepting <==> a.Control? && s.control.ShutClose? && g.accepting)
      && (g'.lifecycle == Created ==> g.lifecycle == Created)
  {
    ReachableHolds(s);
  }

  /**
   A record that reaches the queue goes behind what is there while there is room, is refused when there is none, and is
   never taken when its copy was lost.
   */
  lemma QueueTakesIffRoom(s: State, i: nat, choice: Choice)
    requires Reachable(s) && i < |s.producers| && s.producers[i].Encoded?
    ensures var k, s' := s.backend, Next(s, Produce(i, choice)); var payload := s.producers[i].payload;
      if choice.Lose? then s'.backend == k && s'.truth == s.truth.(lost := s.truth.lost + 1)
      else if |k.queue| < k.capacity then
        && s'.backend.queue == k.queue + [LogMessage(payload)] && s'.backend.accepted == k.accepted + [payload]
        && s'.truth == s.truth
      else
        |k.queue| == k.capacity && s'.backend == k && s'.truth == s.truth.(full := s.truth.full + 1)
  {
    ReachableHolds(s);
  }

  // ---------- Conservation ----------

  /** The worker handled every accepted record, in the order the queue took them, and counted each exactly once. */
  lemma EveryAcceptedRecordHandled(s: State)
    requires Reachable(s) && s.gate.lifecycle == Stopped
    ensures s.backend.processed == s.backend.accepted && s.backend.queue == []
    ensures s.backend.consumptions + s.backend.discards == |s.backend.accepted|
    ensures |s.backend.accepted| < UINT64_MAX ==>
      s.backend.cached.consumed + s.backend.cached.discarded == |s.backend.accepted|
  {
    ReachableHolds(s);
  }

  /**
   After Shutdown `enqueued` equals consumed plus discarded-after-failure exactly when the queue library lost nothing:
   an exception while it copies a message is swallowed before Log publishes the attempt.
   */
  lemma EnqueuedIsConsumedIffNothingLost(s: State)
    requires Reachable(s) && s.gate.lifecycle == Stopped && Unsaturated(s)
    ensures s.observation.enqueued == s.backend.cached.consumed + s.backend.cached.discarded <==> s.truth.lost == 0
  {
    ReconciledAtRest(s);
    ReachableHolds(s);
    StoppedIsSettled(s);
    EveryAcceptedRecordHandled(s);
  }

  /** Once stopped, no step of any thread changes a counter: every later snapshot reads the reconciled values. */
  lemma StoppedIsFinal(s: State, a: Action)
    requires Reachable(s) && s.gate.lifecycle == Stopped && Enabled(s, a)
    ensures var s' := Next(s, a);
      && s'.gate.lifecycle == Stopped && s'.counters == s.counters && s'.truth == s.truth
      && s'.observation == s.observation && s'.backend == s.backend && s'.maximumDepth == s.maximumDepth
  {
    ReachableHolds(s);
    if a.Produce? {
      SumBoundsTerm(s.producers, a.producer, Inside);
    }
  }

  // ---------- Snapshots after Shutdown ----------

  /** What a snapshot begun after Shutdown has read so far is final. */
  predicate CaptureReadsFinal(s: State) {
    s.gate.lifecycle == Stopped ==>
      match s.control
      case CaptureFiltered(attempted) => attempted == s.counters.attempted
      case CapturePool(attempted, filtered) => attempted == s.counters.attempted && filtered == s.counters.filtered
      case CaptureDropped(attempted, filtered) => attempted == s.counters.attempted && filtered == s.counters.filtered
      case CaptureEnqueued(attempted, filtered, dropped) =>
        attempted == s.counters.attempted && filtered == s.counters.filtered && dropped == s.observation.dropped
      case CaptureSinks(attempted, filtered, dropped, enqueued) =>
        && attempted == s.counters.attempted && filtered == s.counters.filtered
        && dropped == s.observation.dropped && enqueued == s.observation.enqueued
      case _ => true
  }

  lemma CaptureStepReadsFinal(s: State)
    requires Invariant(s) && CaptureReadsFinal(s) && Capturing(s.control)
    ensures CaptureReadsFinal(CaptureStep(s))
  {
  }

  /** The mutex keeps Shutdown and snapshots apart, so none straddles the moment the logger stops. */
  lemma StepReadsFinal(s: State, a: Action)
    requires Reachable(s) && CaptureReadsFinal(s) && Enabled(s, a)
    ensures CaptureReadsFinal(Next(s, a))
  {
    ReachableHolds(s);
    if s.gate.lifecycle == Stopped {
      StoppedIsFinal(s, a);
    }
    if a.Control? && Capturing(s.control) {
      CaptureStepReadsFinal(s);
    }
  }

  lemma {:induction false} RunReadsFinal(s: State, actions: seq<Action>)
    requires Initial(s) && Run(s, actions).Some?
    ensures CaptureReadsFinal(Run(s, actions).value)
  {
    if actions != [] {
      var earlier := actions[..|actions| - 1];
      RunReadsFinal(s, earlier);
      assert Reachable(Run(s, earlier).value);
      StepReadsFinal(Run(s, earlier).value, actions[|actions| - 1]);
    }
  }

  /**
   A snapshot taken after Shutdown is never torn: each number is the true one, and they reconcile down to what the worker
   handled.
   */
  lemma SnapshotAfterShutdownReconciles(s: State, a: Action)
    requires Reachable(s) && s.gate.lifecycle == Stopped && Unsaturated(s)
    requires s.control.CaptureSinks? && a.Control? && Enabled(s, a)
    ensures Next(s, a).health.Some?
    ensures var h := Next(s, a).health.value;
      && h.attempted == s.truth.attempts && h.filtered == s.truth.filters && h.dropped == s.truth.full
      && h.enqueued == |s.backend.accepted| + s.truth.lost
      && h.consumed == s.backend.consumptions && h.discarded == s.backend.discards
      && h.attempted == h.filtered + h.enqueued + h.dropped
      && h.enqueued == h.consumed + h.discarded + s.truth.lost
  {
    var start: State, actions: seq<Action> :| Initial(start) && Run(start, actions) == Some(s);
    RunReadsFinal(start, actions);
    ReconciledAtRest(s);
    ReachableHolds(s);
    StoppedIsSettled(s);
    EveryAcceptedRecordHandled(s);
  }
}
