/** When a health snapshot reconciles: exactly which states, and which disturbances, tear it. */
module LoggerSnapshots {
  import opened Prelude
  import opened FanoutSink
  import opened LoggerMachine
  import opened LoggerInvariant
  import opened LoggerTheorems
  import opened LoggerLiveness
  import opened Sums

  /** The health report adds up: every attempt was filtered, enqueued or dropped. */
  predicate Reconciles(h: Health) {
    h.attempted == h.filtered + h.enqueued + h.dropped
  }

  /** The actions take a capture in progress to its end, which reports `h`; other threads may act in between. */
  ghost predicate CaptureEnds(t: State, actions: seq<Action>, h: Health)
    decreases |actions|
  {
    if t.control.Free? then actions == [] && t.health == Some(h)
    else
      && Capturing(t.control) && actions != [] && Enabled(t, actions[0])
      && CaptureEnds(Next(t, actions[0]), actions[1..], h)
  }

  ghost predicate CanReport(t: State, h: Health) {
    exists actions :: CaptureEnds(t, actions, h)
  }

  /** Some interleaving lets a CaptureHealth called in `s` return `h`. */
  ghost predicate Snapshot(s: State, h: Health) {
    s.control.Free? && CanReport(CallStep(s, CallCapture), h)
  }

  // ---------- What a capture will read if nothing disturbs it ----------

  datatype Reading = Reading(attempted: int, filtered: int, dropped: int, enqueued: int)

  function ReadingOf(h: Health): Reading {
    Reading(h.attempted, h.filtered, h.dropped, h.enqueued)
  }

  /** The observation finished from `o` on, while the counters stand still. */
  function FinishedObserving(b: Observation, c: Counters, o: ObserverPc): Observation
    decreases ObserverRank(o)
  {
    match AfterObserve(b, c, o)
    case None => Observe(b, c, o)
    case Some(next) => FinishedObserving(Observe(b, c, o), c, next)
  }

  /** What the split will be once a capture has passed its observation. */
  function ObservedBy(s: State): Observation {
    if s.gate.pool && !s.observation.flag then FinishedObserving(s.observation.(flag := true), s.counters, ReadAttempts)
    else s.observation
  }

  function Expected(t: State): Reading
    requires Capturing(t.control)
  {
    match t.control
    case CaptureFiltered(attempted) =>
      Reading(attempted, t.counters.filtered, ObservedBy(t).dropped, ObservedBy(t).enqueued)
    case CapturePool(attempted, filtered) => Reading(attempted, filtered, ObservedBy(t).dropped, ObservedBy(t).enqueued)
    case CaptureObserving(attempted, filtered, o) =>
      var b := FinishedObserving(t.observation, t.counters, o);
      Reading(attempted, filtered, b.dropped, b.enqueued)
    case CaptureDropped(attempted, filtered) =>
      Reading(attempted, filtered, t.observation.dropped, t.observation.enqueued)
    case CaptureEnqueued(attempted, filtered, dropped) => Reading(attempted, filtered, dropped, t.observation.enqueued)
    case CaptureSinks(attempted, filtered, dropped, enqueued) => Reading(attempted, filtered, dropped, enqueued)
  }

  /** The capture's own step changes nothing about what it will report. */
  lemma CaptureStepKeepsExpected(t: State)
    requires Capturing(t.control)
    ensures var t' := CaptureStep(t);
      if t.control.CaptureSinks? then t'.control.Free? && t'.health.Some? && ReadingOf(t'.health.value) == Expected(t)
      else Capturing(t'.control) && Expected(t') == Expected(t)
  {
    match t.control
    case CaptureObserving(_, _, o) => assert AfterObserve(t.observation, t.counters, o).None? <==> o.ClearFlag?;
    case _ =>
  }

  /** Outside Started no producer gets inside, so no step but the capture's own touches what it reads. */
  lemma NotStartedStandsStill(t: State, a: Action)
    requires Invariant(t) && t.gate.lifecycle != Started && Capturing(t.control) && Enabled(t, a)
    ensures var t' := Next(t, a);
      && Invariant(t') && t'.gate.lifecycle == t.gate.lifecycle && t'.truth == t.truth
      && (a.Produce? ==> t'.counters == t.counters && t'.observation == t.observation && t'.control == t.control
                         && t'.gate.pool == t.gate.pool)
  {
    StepKeeps(t, a);
    if a.Produce? {
      SumBoundsTerm(t.producers, a.producer, Inside);
    }
  }

  /** The only steps that can change what a capture will report are those of producers, while the logger is started. */
  predicate Undisturbed(t: State, a: Action) {
    a.Produce? ==> t.gate.lifecycle != Started
  }

  lemma StepKeepsExpected(t: State, a: Action)
    requires Invariant(t) && Capturing(t.control) && Enabled(t, a) && Undisturbed(t, a)
    ensures var t' := Next(t, a);
      && Invariant(t') && t'.gate.lifecycle == t.gate.lifecycle
      && if t'.control.Free? then t'.health.Some? && ReadingOf(t'.health.value) == Expected(t)
         else Capturing(t'.control) && Expected(t') == Expected(t)
  {
    StepKeeps(t, a);
    match a {
      case Produce(_, _) => NotStartedStandsStill(t, a);
      case Control(_, _, _) => CaptureStepKeepsExpected(t);
      case Work(_, _, _) =>
    }
  }

  /** A capture that no producer disturbs reports what it was going to report from the start. */
  lemma {:induction false} UndisturbedReportsExpected(t: State, actions: seq<Action>, h: Health)
    requires Invariant(t) && Capturing(t.control) && CaptureEnds(t, actions, h)
    requires forall i | 0 <= i < |actions| :: Undisturbed(t, actions[i])
    ensures ReadingOf(h) == Expected(t)
    decreases |actions|
  {
    StepKeepsExpected(t, actions[0]);
    var t' := Next(t, actions[0]);
    if !t'.control.Free? {
      forall i | 0 <= i < |actions[1..]|
        ensures Undisturbed(t', actions[1..][i])
      {
        assert Undisturbed(t, actions[i + 1]);
      }
      UndisturbedReportsExpected(t', actions[1..], h);
    }
  }

  // ---------- Undisturbed snapshots ----------

  /**
   No producer is between being counted and being published, and whoever is observing has credited everything
   published.
   */
  ghost predicate AllPublished(s: State) {
    && Sum(s.producers, Undecided) == 0 && Sum(s.producers, OwesPublication) == 0
    && (s.observation.flag ==>
          s.observation.attempts == s.counters.rawAttempts && Sum(s.producers, OwesCredit) == 0)
  }

  lemma ObservedFromStart(b: Observation, c: Counters)
    ensures var seen := FinishedObserving(b, c, ReadAttempts);
      var attempts, discards := c.rawAttempts - b.attempts, c.discardCounter - b.discards;
      if discards <= attempts then
        seen.dropped == AddSaturating(b.dropped, discards)
        && seen.enqueued == AddSaturating(b.enqueued, attempts - discards)
      else seen.dropped == b.dropped && seen.enqueued == b.enqueued
  {
    var seen := FinishedObserving(b, c, ReadDiscards(c.rawAttempts));
    assert seen == FinishedObserving(b, c, Compare(c.rawAttempts, c.discardCounter));
    var split := Observe(b, c, Compare(c.rawAttempts, c.discardCounter));
    if c.discardCounter - b.discards <= c.rawAttempts - b.attempts {
      var amount := (c.rawAttempts - b.attempts) - (c.discardCounter - b.discards);
      assert seen == FinishedObserving(split, c, AddEnqueued(amount));
      assert seen == FinishedObserving(Observe(split, c, AddEnqueued(amount)), c, ClearFlag);
    } else {
      assert seen == FinishedObserving(split, c, ClearFlag);
    }
  }

  /** With the flag free nothing observed is still owed. */
  lemma FreeFlagOwesNothing(s: State)
    requires Invariant(s) && s.control.Free? && !s.observation.flag
    ensures Sum(s.producers, OwesCredit) == 0
  {
    forall i | 0 <= i < |s.producers|
      ensures OwesCredit(s.producers[i]) == 0
    {
      SumBoundsTerm(s.producers, i, HoldsFlag);
    }
    SumWhenZero(s.producers, OwesCredit);
  }

  /** How far the reading is from adding up, at the moment the capture begins. */
  lemma ExpectedReconcilesIff(s: State)
    requires Invariant(s) && s.control.Free? && Unsaturated(s)
    ensures var r := Expected(CallStep(s, CallCapture));
      r.attempted == r.filtered + r.enqueued + r.dropped <==> AllPublished(s)
  {
    SumsNonNegative(s.producers);
    if !s.observation.flag {
      FreeFlagOwesNothing(s);
    }
    if s.gate.pool && !s.observation.flag {
      ObservedFromStart(s.observation.(flag := true), s.counters);
    } else if !s.gate.pool {
      NotStartedIsSettled(s);
    }
  }

  /** With everything published a capture is going to report the true numbers. */
  lemma ExpectedWhenPublished(s: State)
    requires Invariant(s) && s.control.Free? && Unsaturated(s) && AllPublished(s)
    ensures Expected(CallStep(s, CallCapture)) == Reading(s.truth.attempts, s.truth.filters, s.truth.full, Taken(s))
  {
    SumsNonNegative(s.producers);
    if !s.observation.flag {
      FreeFlagOwesNothing(s);
    }
    if s.gate.pool && !s.observation.flag {
      ObservedFromStart(s.observation.(flag := true), s.counters);
    } else if !s.gate.pool {
      NotStartedIsSettled(s);
    }
  }

  lemma NotStartedIsSettled(s: State)
    requires Invariant(s) && s.gate.lifecycle != Started && s.control.Free?
    ensures s.observation.attempts == s.counters.rawAttempts && !s.observation.flag
    ensures Sum(s.producers, Inside) == 0
  {
    SumsNonNegative(s.producers);
    if s.gate.lifecycle == Stopped {
      StoppedIsSettled(s);
    }
  }

  /**
   A snapshot during which no producer takes a step adds up exactly when no record was between being counted and being
   published as it began.
   */
  lemma QuietSnapshotReconcilesIff(s: State, actions: seq<Action>, h: Health)
    requires Reachable(s) && Unsaturated(s) && s.control.Free? && CaptureEnds(CallStep(s, CallCapture), actions, h)
    requires forall i | 0 <= i < |actions| :: !actions[i].Produce?
    ensures Reconciles(h) <==> AllPublished(s)
  {
    ReachableHolds(s);
    CallCaptureKeeps(s);
    UndisturbedReportsExpected(CallStep(s, CallCapture), actions, h);
    ExpectedReconcilesIff(s);
  }

  /** And then each of its numbers is the true one: how many were attempted, filtered, refused and taken. */
  lemma QuietSnapshotIsTrue(s: State, actions: seq<Action>, h: Health)
    requires Reachable(s) && Unsaturated(s) && s.control.Free? && CaptureEnds(CallStep(s, CallCapture), actions, h)
    requires AllPublished(s) && forall i | 0 <= i < |actions| :: !actions[i].Produce?
    ensures h.attempted == s.truth.attempts && h.filtered == s.truth.filters && h.dropped == s.truth.full
    ensures h.enqueued == |s.backend.accepted| + s.truth.lost
  {
    ReachableHolds(s);
    CallCaptureKeeps(s);
    UndisturbedReportsExpected(CallStep(s, CallCapture), actions, h);
    ExpectedWhenPublished(s);
  }

  /** What a caller can arrange: with every producer kept out of Log while it runs, a snapshot always adds up. */
  lemma SnapshotWithoutProducersReconciles(s: State, actions: seq<Action>, h: Health)
    requires Reachable(s) && Unsaturated(s) && s.control.Free? && CaptureEnds(CallStep(s, CallCapture), actions, h)
    requires Sum(s.producers, Inside) == 0 && forall i | 0 <= i < |actions| :: !actions[i].Produce?
    ensures Reconciles(h)
  {
    ReachableHolds(s);
    SumsNonNegative(s.producers);
    QuietSnapshotReconcilesIff(s, actions, h);
  }

  // ---------- Runs that tear a snapshot ----------

  /** A capture in `t` can report whatever one in `u` can. */
  ghost predicate LeadsTo(t: State, u: State) {
    forall h :: CanReport(u, h) ==> CanReport(t, h)
  }

  lemma StepLeads(t: State, a: Action)
    requires Capturing(t.control) && Enabled(t, a)
    ensures LeadsTo(t, Next(t, a))
  {
    forall h | CanReport(Next(t, a), h)
      ensures CanReport(t, h)
    {
      var actions :| CaptureEnds(Next(t, a), actions, h);
      assert ([a] + actions)[1..] == actions;
      assert CaptureEnds(t, [a] + actions, h);
    }
  }

  function CaptureRank(c: ControlPc): nat {
    match c
    case CaptureFiltered(_) => 10
    case CapturePool(_, _) => 9
    case CaptureObserving(_, _, o) => 3 + ObserverRank(o)
    case CaptureDropped(_, _) => 3
    case CaptureEnqueued(_, _, _) => 2
    case CaptureSinks(_, _, _, _) => 1
    case _ => 0
  }

  lemma CaptureStepCountsDown(t: State)
    requires Capturing(t.control)
    ensures CaptureRank(CaptureStep(t).control) < CaptureRank(t.control)
  {
  }

  /** Left alone, a capture ends. */
  lemma {:induction false} CaptureAlone(t: State) returns (h: Health)
    requires Capturing(t.control)
    ensures CanReport(t, h) && ReadingOf(h) == Expected(t)
    decreases CaptureRank(t.control)
  {
    var a := Control(Proceed, true, true);
    CaptureStepKeepsExpected(t);
    CaptureStepCountsDown(t);
    StepLeads(t, a);
    var t' := Next(t, a);
    if t'.control.Free? {
      h := t'.health.value;
      assert CaptureEnds(t', [], h);
    } else {
      h := CaptureAlone(t');
    }
  }

  /** On its way to counting a record as filtered, with the steps still to take. */
  predicate MayFilter(pc: ProducerPc) {
    pc.Idle? || pc.Checked? || pc.Counted? || pc.Entered? || pc.Attempted?
  }

  function StepsToFilter(pc: ProducerPc): nat {
    match pc
    case Idle => 5
    case Checked => 4
    case Counted => 3
    case Entered => 2
    case _ => 1
  }

  /** A capture that has read `attempted` and nothing else, with admission open. */
  predicate JustBegun(t: State) {
    t.control.CaptureFiltered? && t.gate.accepting && t.producers != []
  }

  /** What a producer elsewhere in Log needs to finish first: none of its steps counts an attempt or a filter. */
  lemma {:induction false} ProducerFinishes(t: State) returns (u: State)
    requires JustBegun(t)
    ensures JustBegun(u) && LeadsTo(t, u) && MayFilter(u.producers[0])
    ensures u.control == t.control && u.counters.filtered == t.counters.filtered
    decreases ProducerRank(t.producers[0])
  {
    if MayFilter(t.producers[0]) {
      u := t;
    } else {
      var a := Produce(0, Proceed);
      StepLeads(t, a);
      u := ProducerFinishes(Next(t, a));
    }
  }

  /** The reading depends on the counters through what was filtered, published and discarded only. */
  lemma OnlyFilteredDiffers(t: State, u: State)
    requires t.control.CaptureFiltered? && u.control == t.control
    requires u.gate.pool == t.gate.pool && u.observation == t.observation
    requires u.counters.rawAttempts == t.counters.rawAttempts && u.counters.discardCounter == t.counters.discardCounter
    ensures Expected(u) == Expected(t).(filtered := u.counters.filtered)
  {
    var b := t.observation.(flag := true);
    ObservedFromStart(b, t.counters);
    ObservedFromStart(b, u.counters);
  }

  /** One record counted as filtered, and nothing else about the reading changed. */
  lemma {:induction false} ProducerFilters(t: State) returns (u: State)
    requires JustBegun(t) && MayFilter(t.producers[0]) && t.counters.filtered < UINT64_MAX
    ensures Capturing(u.control) && LeadsTo(t, u)
    ensures Expected(u) == Expected(t).(filtered := t.counters.filtered + 1)
    decreases StepsToFilter(t.producers[0])
  {
    var a := Produce(0, Filter);
    StepLeads(t, a);
    var t' := Next(t, a);
    OnlyFilteredDiffers(t, t');
    if t.producers[0].Attempted? {
      u := t';
    } else {
      u := ProducerFilters(t');
    }
  }

  /** Of two captures that differ by one filtered record only one can add up. */
  lemma StartedCanTear(s: State) returns (h: Health)
    requires s.control.Free? && s.gate.accepting && s.producers != [] && s.counters.filtered < UINT64_MAX
    ensures Snapshot(s, h) && !Reconciles(h)
  {
    var begun := CallStep(s, CallCapture);
    var ready := ProducerFinishes(begun);
    h := CaptureAlone(ready);
    if Reconciles(h) {
      var filtered := ProducerFilters(ready);
      h := CaptureAlone(filtered);
    }
  }

  // ---------- Exactly which states tear a snapshot ----------

  /** A started logger admits producers until Shutdown closes it. */
  ghost predicate AdmissionOpen(s: State) {
    s.gate.lifecycle == Started && !s.control.StartPublish? && !Closing(s.control) ==> s.gate.accepting
  }

  lemma ProducersLeaveTheGate(s: State, i: nat, choice: Choice)
    requires i < |s.producers|
    ensures var s' := ProducerStep(s, i, choice);
      s'.control == s.control && s'.gate.lifecycle == s.gate.lifecycle && s'.gate.accepting == s.gate.accepting
  {
  }

  lemma StepKeepsAdmissionOpen(s: State, a: Action)
    requires AdmissionOpen(s) && Enabled(s, a)
    ensures AdmissionOpen(Next(s, a))
  {
    match a
    case Produce(i, choice) => ProducersLeaveTheGate(s, i, choice);
    case Control(_, _, _) =>
    case Work(_, _, _) =>
  }

  lemma {:induction false} RunKeepsAdmissionOpen(s: State, actions: seq<Action>)
    requires Initial(s) && Run(s, actions).Some?
    ensures AdmissionOpen(Run(s, actions).value)
  {
    if actions != [] {
      var earlier := actions[..|actions| - 1];
      RunKeepsAdmissionOpen(s, earlier);
      StepKeepsAdmissionOpen(Run(s, earlier).value, actions[|actions| - 1]);
    }
  }

  /**
   Every snapshot begun in a state adds up, in every continuation, exactly when the logger is not started: before Start
   and after Shutdown nothing moves, and while it is started one record filtered between the two reads is enough.
   */
  lemma EverySnapshotReconcilesIff(s: State)
    requires Reachable(s) && Unsaturated(s) && s.control.Free? && s.producers != []
    ensures exists h :: Snapshot(s, h)
    ensures (forall h | Snapshot(s, h) :: Reconciles(h)) <==> s.gate.lifecycle != Started
  {
    ReachableHolds(s);
    var alone := CaptureAlone(CallStep(s, CallCapture));
    assert Snapshot(s, alone);
    if s.gate.lifecycle == Started {
      var start: State, actions: seq<Action> :| Initial(start) && Run(start, actions) == Some(s);
      RunKeepsAdmissionOpen(start, actions);
      SumsNonNegative(s.producers);
      var h := StartedCanTear(s);
    } else {
      forall h | Snapshot(s, h)
        ensures Reconciles(h)
      {
        NotStartedSnapshotReconciles(s, h);
      }
    }
  }

  lemma NotStartedSnapshotReconciles(s: State, h: Health)
    requires Invariant(s) && Unsaturated(s) && s.control.Free? && s.gate.lifecycle != Started && Snapshot(s, h)
    ensures Reconciles(h)
  {
    var actions :| CaptureEnds(CallStep(s, CallCapture), actions, h);
    CallCaptureKeeps(s);
    UndisturbedReportsExpected(CallStep(s, CallCapture), actions, h);
    NotStartedIsSettled(s);
    SumsNonNegative(s.producers);
    ExpectedReconcilesIff(s);
  }
}
