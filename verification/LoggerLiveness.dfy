/** Shutdown finishes: once admission is closed every step counts down, and some step is always possible. */
module LoggerLiveness {
  import opened Prelude
  import opened FanoutSink
  import opened LoggerMachine
  import opened LoggerInvariant
  import opened Sums
  import opened LoggerTheorems

  // ---------- A measure of the work left ----------

  function ObserverRank(o: ObserverPc): nat {
    match o
    case ReadAttempts => 5
    case ReadDiscards(_) => 4
    case Compare(_, _) => 3
    case AddEnqueued(_) => 2
    case ClearFlag => 1
  }

  /** Steps until the producer is out of Log, with two more for a message it may still post. */
  function ProducerRank(pc: ProducerPc): int {
    match pc
    case Idle => 0
    case Refused => 1
    case Leaving => 1
    case Counted => 2
    case Checked => 3
    case Measured(_) => 2
    case Observed => 3
    case Observing(o) => 3 + ObserverRank(o)
    case Published => 9
    case Posted => 10
    case Discarding => 11
    case Encoded(_) => 13
    case Attempted => 14
    case Entered => 15
  }

  function WorkerRank(worker: WorkerPc): nat {
    if worker.Handling? then 1 else 0
  }

  function ControlRank(c: ControlPc): nat {
    match c
    case ShutWait => 18
    case ShutFlush => 17
    case ShutPool(_) => 14
    case ShutObserving(_, o) => 8 + ObserverRank(o)
    case ShutTerminate(_) => 8
    case ShutJoin(_) => 3
    case ShutSnapshot(_) => 2
    case ShutReset => 1
    case _ => 0
  }

  function Rank(s: State): int {
    Sum(s.producers, ProducerRank) + 2 * |s.backend.queue| + WorkerRank(s.backend.worker) + ControlRank(s.control)
  }

  // ---------- Every step counts down ----------

  ghost predicate DropsOwnRank(s: State, s': State, i: nat)
    requires i < |s.producers|
  {
    && |s'.producers| == |s.producers| && s'.producers == s.producers[i := s'.producers[i]]
    && s'.control == s.control && s'.backend.worker == s.backend.worker
    && ProducerRank(s'.producers[i]) + 2 * |s'.backend.queue| < ProducerRank(s.producers[i]) + 2 * |s.backend.queue|
  }

  lemma AdmissionDrops(s: State, i: nat, choice: Choice)
    requires !s.gate.accepting && i < |s.producers| && !s.producers[i].Idle? && InAdmission(s.producers[i])
    ensures DropsOwnRank(s, ProducerStep(s, i, choice), i)
  {
  }

  lemma RecordDrops(s: State, i: nat, choice: Choice)
    requires i < |s.producers| && InRecord(s.producers[i])
    ensures DropsOwnRank(s, RecordStep(s, i, choice), i)
  {
  }

  lemma ObservationDrops(s: State, i: nat, choice: Choice)
    requires i < |s.producers| && !InAdmission(s.producers[i]) && !InRecord(s.producers[i])
    ensures DropsOwnRank(s, ProducerStep(s, i, choice), i)
  {
  }

  /** What one producer step takes off its own rank and may add to the queue. */
  lemma OwnRankDrops(s: State, i: nat, choice: Choice)
    requires !s.gate.accepting && i < |s.producers| && !s.producers[i].Idle?
    ensures DropsOwnRank(s, ProducerStep(s, i, choice), i)
  {
    if InAdmission(s.producers[i]) {
      AdmissionDrops(s, i, choice);
    } else if InRecord(s.producers[i]) {
      RecordDrops(s, i, choice);
    } else {
      ObservationDrops(s, i, choice);
    }
  }

  /** An idle producer is turned away; any other moves one step nearer to leaving Log. */
  lemma ProducerCountsDown(s: State, i: nat, choice: Choice)
    requires !s.gate.accepting && i < |s.producers|
    ensures var s' := ProducerStep(s, i, choice); if s.producers[i].Idle? then s' == s else Rank(s') < Rank(s)
  {
    var s' := ProducerStep(s, i, choice);
    if s.producers[i].Idle? {
      assert s.producers[i := Idle] == s.producers;
    } else {
      OwnRankDrops(s, i, choice);
      SumUpdate(s.producers, i, s'.producers[i], ProducerRank);
    }
  }

  lemma ControlCountsDown(s: State, choice: Choice, fileFlushed: bool, consoleFlushed: bool)
    requires Closing(s.control) && Enabled(s, Control(choice, fileFlushed, consoleFlushed))
    ensures var s' := ShutdownStep(s, choice, fileFlushed, consoleFlushed); s' == s || Rank(s') < Rank(s)
  {
  }

  lemma WorkerCountsDown(s: State, outcome: Outcome, fileFlushed: bool, consoleFlushed: bool)
    requires WorkerEnabled(s.backend)
    ensures Rank(Next(s, Work(outcome, fileFlushed, consoleFlushed))) < Rank(s)
  {
  }

  /** A step that changes anything while Shutdown closes brings its end nearer. */
  lemma EveryStepCountsDown(s: State, a: Action)
    requires Reachable(s) && Closing(s.control) && Enabled(s, a)
    ensures Next(s, a) == s || Rank(Next(s, a)) < Rank(s)
  {
    ReachableHolds(s);
    match a
    case Produce(i, choice) => ProducerCountsDown(s, i, choice);
    case Control(choice, fileFlushed, consoleFlushed) => ControlCountsDown(s, choice, fileFlushed, consoleFlushed);
    case Work(outcome, fileFlushed, consoleFlushed) => WorkerCountsDown(s, outcome, fileFlushed, consoleFlushed);
  }

  // ---------- Some step is always possible ----------

  /** The action does not rely on anything throwing. */
  predicate Faultless(a: Action) {
    match a
    case Produce(_, choice) => !choice.Lose? && !choice.Throw?
    case Control(choice, _, _) => !choice.Throw?
    case Work(_, _, _) => true
  }

  /** The action is possible, needs no failure, and brings the end nearer. */
  ghost predicate Progresses(s: State, a: Action) {
    Faultless(a) && Enabled(s, a) && Rank(Next(s, a)) < Rank(s)
  }

  /** The spin loop waits only for producers that can move on their own. */
  lemma SpinningProducerMoves(s: State)
    requires Invariant(s) && s.control.ShutWait? && s.gate.activeProducers != 0
    ensures exists a :: Progresses(s, a)
  {
    SumBoundsTerm(s.producers, 0, InGuard);
    var i := SumPositive(s.producers, InGuard);
    var choice := if s.producers[i].Attempted? then Filter else Proceed;
    ProducerCountsDown(s, i, choice);
    assert Progresses(s, Produce(i, choice));
  }

  /** A queue without room, or a worker not yet finished, has work the worker can do. */
  lemma WorkerMoves(s: State)
    requires WorkerEnabled(s.backend)
    ensures exists a :: Progresses(s, a)
  {
    var a := Work(Outcome(false, false, false, false), true, true);
    WorkerCountsDown(s, a.outcome, true, true);
    assert Progresses(s, a);
  }

  lemma ShutdownMoves(s: State)
    requires Closing(s.control) && ShutdownEnabled(s, Proceed) && ShutdownStep(s, Proceed, true, true) != s
    ensures exists a :: Progresses(s, a)
  {
    ControlCountsDown(s, Proceed, true, true);
    assert Progresses(s, Control(Proceed, true, true));
  }

  /** Shutdown never deadlocks: until it has returned, some thread can bring its end nearer without any failure. */
  lemma ShutdownNeverStuck(s: State)
    requires Reachable(s) && Closing(s.control)
    ensures exists a :: Progresses(s, a)
  {
    ReachableHolds(s);
    if s.control.ShutWait? && s.gate.activeProducers != 0 {
      SpinningProducerMoves(s);
    } else if WorkerEnabled(s.backend) {
      WorkerMoves(s);
    } else {
      ShutdownMoves(s);
    }
  }

  /** The states of a run in which every step changed something and Shutdown was closing throughout. */
  ghost predicate ClosingRun(run: seq<State>) {
    run != [] && Reachable(run[0]) && forall i | 0 <= i < |run| - 1 :: ClosingStep(run[i], run[i + 1])
  }

  ghost predicate ClosingStep(s: State, s': State) {
    Closing(s.control) && s' != s && exists a :: Enabled(s, a) && Next(s, a) == s'
  }

  lemma ClosingStepCountsDown(s: State, s': State)
    requires Reachable(s) && ClosingStep(s, s')
    ensures Reachable(s') && Rank(s') < Rank(s)
  {
    var a :| Enabled(s, a) && Next(s, a) == s';
    EveryStepCountsDown(s, a);
    ReachableNext(s, a);
  }

  /** Shutdown returns within a number of steps fixed when admission closes, in every schedule that keeps moving. */
  lemma {:induction false} ClosingRunIsBounded(run: seq<State>)
    requires ClosingRun(run)
    ensures Reachable(run[|run| - 1])
    ensures |run| - 1 <= Rank(run[0]) - Rank(run[|run| - 1]) <= Rank(run[0])
  {
    var last := |run| - 1;
    if last == 0 {
      RankNonNegative(run[0]);
    } else {
      var earlier := run[..last];
      ClosingRunIsBounded(earlier);
      assert earlier[|earlier| - 1] == run[last - 1];
      assert ClosingStep(run[last - 1], run[last - 1 + 1]);
      ClosingStepCountsDown(run[last - 1], run[last]);
      RankNonNegative(run[last]);
    }
  }

  lemma RankNonNegative(s: State)
    ensures Rank(s) >= 0
  {
    SumBoundsTerm(s.producers, 0, ProducerRank);
  }
}
