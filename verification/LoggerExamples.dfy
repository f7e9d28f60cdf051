/** Two interleavings that show where the published counters say less than a reader may expect. */
module LoggerExamples {
  import opened Prelude
  import opened FanoutSink
  import opened LoggerMachine
  import opened LoggerTheorems

  /** A started logger whose queue holds one message at most, with one producer inside Log. */
  function At(pc: ProducerPc, control: ControlPc, c: Counters, o: Observation, accepted: seq<Payload>, t: Truth,
              health: Option<Health>): State {
    var ledger := InitialLedger(true, true);
    State(Gate(Started, true, 1, true, true, true), c, o,
          Backend(1, seq(|accepted|, i requires 0 <= i < |accepted| => LogMessage(accepted[i])), Waiting, ledger, ledger,
                  accepted, [], 0, 0, History(true, true, [])), t, 0, [pc], control, health)
  }

  const UNSEEN := Observation(false, 0, 0, 0, 0, 0)
  const SEEN := Observation(true, 1, 0, 0, 1, 1)

  lemma Step(s: State, a: Action, s': State)
    requires Reachable(s) && Enabled(s, a) && Next(s, a) == s'
    ensures Reachable(s')
  {
    ReachableNext(s, a);
  }

  lemma ProducerCounted()
    ensures Reachable(At(Counted, Free, Counters(0, 0, 0, 0), UNSEEN, [], Truth(0, 0, 0, 0), None))
  {
    var s0 := InitialState(1, 1, true, true);
    assert Initial(s0) && Run(s0, []) == Some(s0);
    var s1 := CallStep(s0, CallStart);
    Step(s0, Control(CallStart, true, true), s1);
    var s2 := s1.(gate := s1.gate.(accepting := true), control := Free);
    Step(s1, Control(Proceed, true, true), s2);
    var s3 := s2.(producers := [Checked]);
    Step(s2, Produce(0, Proceed), s3);
    Step(s3, Produce(0, Proceed), At(Counted, Free, Counters(0, 0, 0, 0), UNSEEN, [], Truth(0, 0, 0, 0), None));
  }

  lemma ProducerAttempts(control: ControlPc)
    requires Reachable(At(Counted, control, Counters(0, 0, 0, 0), UNSEEN, [], Truth(0, 0, 0, 0), None))
    ensures Reachable(At(Attempted, control, Counters(1, 0, 0, 0), UNSEEN, [], Truth(1, 0, 0, 0), None))
  {
    var zero := Counters(0, 0, 0, 0);
    Step(At(Counted, control, zero, UNSEEN, [], Truth(0, 0, 0, 0), None), Produce(0, Proceed),
         At(Entered, control, zero, UNSEEN, [], Truth(0, 0, 0, 0), None));
    Step(At(Entered, control, zero, UNSEEN, [], Truth(0, 0, 0, 0), None), Produce(0, Proceed),
         At(Attempted, control, Counters(1, 0, 0, 0), UNSEEN, [], Truth(1, 0, 0, 0), None));
  }

  lemma ProducerPosts(control: ControlPc, lost: bool)
    requires Reachable(At(Attempted, control, Counters(1, 0, 0, 0), UNSEEN, [], Truth(1, 0, 0, 0), None))
    ensures Reachable(At(Posted, control, Counters(1, 0, 0, 0), UNSEEN, if lost then [] else [[]],
                         Truth(1, 0, 0, if lost then 1 else 0), None))
  {
    var one := Counters(1, 0, 0, 0);
    var encoded := At(Encoded([]), control, one, UNSEEN, [], Truth(1, 0, 0, 0), None);
    Step(At(Attempted, control, one, UNSEEN, [], Truth(1, 0, 0, 0), None), Produce(0, Encode([])), encoded);
    if lost {
      Step(encoded, Produce(0, Lose), At(Posted, control, one, UNSEEN, [], Truth(1, 0, 0, 1), None));
    } else {
      Step(encoded, Produce(0, Proceed), At(Posted, control, one, UNSEEN, [[]], Truth(1, 0, 0, 0), None));
    }
  }

  /** The producer's way from the guard to the observer's last step, with the queue taking or losing its record. */
  lemma ProducerObserves(control: ControlPc, lost: bool)
    requires Reachable(At(Counted, control, Counters(0, 0, 0, 0), UNSEEN, [], Truth(0, 0, 0, 0), None))
    ensures Reachable(At(Observing(ClearFlag), control, Counters(1, 0, 1, 0), SEEN, if lost then [] else [[]],
                         Truth(1, 0, 0, if lost then 1 else 0), None))
  {
    ProducerAttempts(control);
    ProducerPosts(control, lost);
    PublishedIsObserved(control, if lost then [] else [[]], Truth(1, 0, 0, if lost then 1 else 0));
  }

  lemma PublishedIsObserved(control: ControlPc, accepted: seq<Payload>, t: Truth)
    requires Reachable(At(Posted, control, Counters(1, 0, 0, 0), UNSEEN, accepted, t, None))
    ensures Reachable(At(Observing(ClearFlag), control, Counters(1, 0, 1, 0), SEEN, accepted, t, None))
  {
    var c := Counters(1, 0, 1, 0);
    Step(At(Posted, control, Counters(1, 0, 0, 0), UNSEEN, accepted, t, None), Produce(0, Proceed),
         At(Published, control, c, UNSEEN, accepted, t, None));
    var up := Observation(true, 0, 0, 0, 0, 0);
    Step(At(Published, control, c, UNSEEN, accepted, t, None), Produce(0, Proceed),
         At(Observing(ReadAttempts), control, c, up, accepted, t, None));
    Step(At(Observing(ReadAttempts), control, c, up, accepted, t, None), Produce(0, Proceed),
         At(Observing(ReadDiscards(1)), control, c, up, accepted, t, None));
    ReadingsAreCredited(control, accepted, t);
  }

  lemma ReadingsAreCredited(control: ControlPc, accepted: seq<Payload>, t: Truth)
    requires Reachable(At(Observing(ReadDiscards(1)), control, Counters(1, 0, 1, 0), Observation(true, 0, 0, 0, 0, 0),
                          accepted, t, None))
    ensures Reachable(At(Observing(ClearFlag), control, Counters(1, 0, 1, 0), SEEN, accepted, t, None))
  {
    var c, up := Counters(1, 0, 1, 0), Observation(true, 0, 0, 0, 0, 0);
    Step(At(Observing(ReadDiscards(1)), control, c, up, accepted, t, None), Produce(0, Proceed),
         At(Observing(Compare(1, 0)), control, c, up, accepted, t, None));
    SplitIsCredited(control, accepted, t);
  }

  lemma SplitIsCredited(control: ControlPc, accepted: seq<Payload>, t: Truth)
    requires Reachable(At(Observing(Compare(1, 0)), control, Counters(1, 0, 1, 0), Observation(true, 0, 0, 0, 0, 0),
                          accepted, t, None))
    ensures Reachable(At(Observing(ClearFlag), control, Counters(1, 0, 1, 0), SEEN, accepted, t, None))
  {
    var c, up := Counters(1, 0, 1, 0), Observation(true, 0, 0, 0, 0, 0);
    var split := Observation(true, 1, 0, 0, 0, 0);
    Step(At(Observing(Compare(1, 0)), control, c, up, accepted, t, None), Produce(0, Proceed),
         At(Observing(AddEnqueued(1)), control, c, split, accepted, t, None));
    Step(At(Observing(AddEnqueued(1)), control, c, split, accepted, t, None), Produce(0, Proceed),
         At(Observing(ClearFlag), control, c, SEEN, accepted, t, None));
  }

  /** A record whose copy threw inside the queue library is reported as enqueued, although the queue never saw it. */
  lemma LostRecordCountsAsEnqueued()
    ensures exists s :: Reachable(s) && s.observation.enqueued == 1 && s.backend.accepted == [] && s.truth.full == 0
  {
    ProducerCounted();
    ProducerObserves(Free, true);
  }

  /** A snapshot taken while a producer runs can report more records enqueued than attempted. */
  lemma SnapshotCanBeTorn()
    ensures exists s :: Reachable(s) && s.health.Some? && s.health.value.attempted < s.health.value.enqueued
  {
    ProducerCounted();
    var zero, nothing := Counters(0, 0, 0, 0), Truth(0, 0, 0, 0);
    Step(At(Counted, Free, zero, UNSEEN, [], nothing, None), Control(CallCapture, true, true),
         At(Counted, CaptureFiltered(0), zero, UNSEEN, [], nothing, None));
    Step(At(Counted, CaptureFiltered(0), zero, UNSEEN, [], nothing, None), Control(Proceed, true, true),
         At(Counted, CapturePool(0, 0), zero, UNSEEN, [], nothing, None));
    ProducerObserves(CapturePool(0, 0), false);
    CaptureFinishes();
  }

  /** The snapshot finds the flag taken and reads the counters as they are. */
  lemma CaptureFinishes()
    requires Reachable(At(Observing(ClearFlag), CapturePool(0, 0), Counters(1, 0, 1, 0), SEEN, [[]], Truth(1, 0, 0, 0),
                          None))
    ensures exists s :: Reachable(s) && s.health == Some(Health(true, 0, 0, 0, 1, false, false, 0, 0, 1, 0))
  {
    var pc, c, t := Observing(ClearFlag), Counters(1, 0, 1, 0), Truth(1, 0, 0, 0);
    Step(At(pc, CapturePool(0, 0), c, SEEN, [[]], t, None), Control(Proceed, true, true),
         At(pc, CaptureDropped(0, 0), c, SEEN, [[]], t, None));
    Step(At(pc, CaptureDropped(0, 0), c, SEEN, [[]], t, None), Control(Proceed, true, true),
         At(pc, CaptureEnqueued(0, 0, 0), c, SEEN, [[]], t, None));
    Step(At(pc, CaptureEnqueued(0, 0, 0), c, SEEN, [[]], t, None), Control(Proceed, true, true),
         At(pc, CaptureSinks(0, 0, 0, 1), c, SEEN, [[]], t, None));
    Step(At(pc, CaptureSinks(0, 0, 0, 1), c, SEEN, [[]], t, None), Control(Proceed, true, true),
         At(pc, Free, c, SEEN, [[]], t, Some(Health(true, 0, 0, 0, 1, false, false, 0, 0, 1, 0))));
  }
}
