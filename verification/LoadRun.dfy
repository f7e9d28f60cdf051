/** The whole fixed-rate run: how clients are divided among workers, and how the workers' results add up. */
module LoadRun {
  import opened Prelude
  import opened Sums
  import opened LoadSchedule

  const NANOSECONDS_PER_SECOND := 1_000_000_000

  /**
   What the configuration and the published timeline fix; the configuration reader admits no more workers than
   clients.
   */
  datatype Workload = Workload(clientCount: uint32, workerCount: uint32, requestRatePerClient: uint32,
                               workloadBegin: int, measurementBegin: int, measurementEnd: int) {
    predicate Configured() {
      1 <= workerCount <= clientCount && requestRatePerClient > 0
    }

    function AggregateRate(): nat {
      clientCount * requestRatePerClient
    }

    /** Run refuses any other rate: the scheduler counts whole nanoseconds. */
    predicate RateSupported() {
      0 < AggregateRate() <= NANOSECONDS_PER_SECOND
    }
  }

  // ---------- The partition ----------

  function WorkerClients(w: Workload, worker: nat): nat
    requires w.Configured()
  {
    w.clientCount / w.workerCount + (if worker < w.clientCount % w.workerCount then 1 else 0)
  }

  function WorkerBegin(w: Workload, worker: nat): nat
    requires w.Configured()
  {
    worker * (w.clientCount / w.workerCount) + Min(worker, w.clientCount % w.workerCount)
  }

  function WorkerEnd(w: Workload, worker: nat): nat
    requires w.Configured()
  {
    WorkerBegin(w, worker) + WorkerClients(w, worker)
  }

  /** Each range begins where the one before ends; together they are all clients in order. */
  lemma RangesFollowEachOther(w: Workload, worker: nat)
    requires w.Configured()
    ensures WorkerBegin(w, 0) == 0 && WorkerBegin(w, w.workerCount) == w.clientCount
    ensures WorkerBegin(w, worker + 1) == WorkerEnd(w, worker)
  {
    assert (worker + 1) * (w.clientCount / w.workerCount)
        == worker * (w.clientCount / w.workerCount) + w.clientCount / w.workerCount;
  }

  /** No worker is idle, and no two differ by more than one client. */
  lemma RangesAreBalanced(w: Workload, a: nat, b: nat)
    requires w.Configured()
    ensures WorkerClients(w, a) >= 1
    ensures -1 <= WorkerClients(w, a) - WorkerClients(w, b) <= 1
  {
    assert w.clientCount == w.workerCount * (w.clientCount / w.workerCount) + w.clientCount % w.workerCount;
    assert w.clientCount / w.workerCount >= 1;
  }

  lemma {:induction false} RangesIncrease(w: Workload, a: nat, b: nat)
    requires w.Configured() && a <= b
    ensures WorkerBegin(w, a) <= WorkerBegin(w, b)
    decreases b - a
  {
    if a < b {
      RangesIncrease(w, a, b - 1);
      RangesFollowEachOther(w, b - 1);
    }
  }

  /** Every client belongs to exactly one worker. */
  lemma EveryClientHasOneWorker(w: Workload, client: nat)
    requires w.Configured() && client < w.clientCount
    ensures exists worker: nat :: worker < w.workerCount && Owns(w, worker, client)
    ensures forall a: nat, b: nat :: Owns(w, a, client) && Owns(w, b, client) ==> a == b
  {
    RangesFollowEachOther(w, 0);
    var worker := OwnerBelow(w, client, w.workerCount);
    forall a: nat, b: nat | Owns(w, a, client) && Owns(w, b, client)
      ensures a == b
    {
      if a < b {
        RangesFollowEachOther(w, a);
        RangesIncrease(w, a + 1, b);
      } else if b < a {
        RangesFollowEachOther(w, b);
        RangesIncrease(w, b + 1, a);
      }
    }
  }

  predicate Owns(w: Workload, worker: nat, client: nat)
    requires w.Configured()
  {
    WorkerBegin(w, worker) <= client < WorkerEnd(w, worker)
  }

  lemma {:induction false} OwnerBelow(w: Workload, client: nat, bound: nat) returns (worker: nat)
    requires w.Configured() && client < WorkerBegin(w, bound)
    ensures worker < bound && Owns(w, worker, client)
  {
    RangesFollowEachOther(w, 0);
    assert bound > 0;
    RangesFollowEachOther(w, bound - 1);
    if WorkerBegin(w, bound - 1) <= client {
      worker := bound - 1;
    } else {
      worker := OwnerBelow(w, client, bound - 1);
    }
  }

  // ---------- The workers' plans ----------

  lemma MultiplyAtMost(a: nat, b: nat, c: nat)
    requires a <= b
    ensures a * c <= b * c
  {
  }

  lemma AtLeastEither(a: nat, b: nat)
    requires a > 0 && b > 0
    ensures a * b >= a && a * b >= b
  {
  }

  lemma QuotientPositive(a: nat, b: nat)
    requires 0 < b <= a
    ensures a / b >= 1 && a / b * b <= a
  {
  }

  lemma WithinSecond(total: nat, rate: nat, worker: nat)
    requires 0 < rate <= total && worker < rate
    ensures total / rate * worker < total
  {
    QuotientPositive(total, rate);
    MultiplyLess(worker, rate, total / rate);
  }

  lemma MultiplyLess(a: nat, b: nat, c: nat)
    requires a < b && c > 0
    ensures c * a < c * b
  {
  }

  lemma WorkerClientsArePart(w: Workload, worker: nat)
    requires w.Configured() && worker < w.workerCount
    ensures 0 < WorkerClients(w, worker) <= w.clientCount
  {
    RangesAreBalanced(w, worker, worker);
    RangesFollowEachOther(w, worker);
    RangesIncrease(w, worker + 1, w.workerCount);
  }

  lemma WorkerRateIsPart(w: Workload, worker: nat)
    requires w.Configured() && worker < w.workerCount
    ensures 0 < WorkerClients(w, worker) * w.requestRatePerClient <= w.AggregateRate()
  {
    WorkerClientsArePart(w, worker);
    AtLeastEither(WorkerClients(w, worker), w.requestRatePerClient);
    MultiplyAtMost(WorkerClients(w, worker), w.clientCount, w.requestRatePerClient);
  }

  /** Nanoseconds between a worker's slots. */
  function Interval(w: Workload, worker: nat): (n: nat)
    requires w.Configured() && w.RateSupported() && worker < w.workerCount
    ensures n > 0
  {
    var rate := WorkerClients(w, worker) * w.requestRatePerClient;
    WorkerRateIsPart(w, worker);
    QuotientPositive(NANOSECONDS_PER_SECOND, rate);
    NANOSECONDS_PER_SECOND / rate
  }

  /** How long after the first worker a worker starts. */
  function Stagger(w: Workload, worker: nat): (n: nat)
    requires w.Configured() && w.RateSupported() && worker < w.workerCount
    ensures n < NANOSECONDS_PER_SECOND
  {
    var rate := w.AggregateRate();
    AtLeastEither(w.clientCount, w.requestRatePerClient);
    WithinSecond(NANOSECONDS_PER_SECOND, rate, worker);
    NANOSECONDS_PER_SECOND / rate * worker
  }

  function PlanOf(w: Workload, worker: nat): Plan
    requires w.Configured() && w.RateSupported() && worker < w.workerCount
  {
    Plan(WorkerClients(w, worker), Interval(w, worker), w.workloadBegin + Stagger(w, worker), w.measurementBegin,
         w.measurementEnd)
  }

  /** A supported rate gives every worker a grid: an interval of at least a nanosecond, starting within a second. */
  lemma PlansAreValid(w: Workload, worker: nat)
    requires w.Configured() && w.RateSupported() && worker < w.workerCount
    requires 0 <= w.workloadBegin <= INT64_MAX - NANOSECONDS_PER_SECOND
    requires 0 <= w.measurementBegin <= w.measurementEnd <= INT64_MAX
    ensures PlanOf(w, worker).Valid()
    ensures 0 <= PlanOf(w, worker).start - w.workloadBegin < NANOSECONDS_PER_SECOND
  {
    WorkerClientsArePart(w, worker);
  }

  lemma GreatestFit(total: nat, rate: nat)
    requires rate > 0
    ensures total / rate * rate <= total < (total / rate + 1) * rate
  {
    assert total == total / rate * rate + total % rate;
    Distribute(total / rate, 1, rate);
  }

  /**
   A worker serves its own clients at their rate: its interval is the greatest whole number of nanoseconds at which its
   requests of one second still fit into one.
   */
  lemma PlansKeepTheRate(w: Workload, worker: nat)
    requires w.Configured() && w.RateSupported() && worker < w.workerCount
    ensures var plan := PlanOf(w, worker); var rate := plan.clientCount * w.requestRatePerClient;
      && plan.clientCount == WorkerEnd(w, worker) - WorkerBegin(w, worker)
      && plan.interval * rate <= 1_000_000_000 < (plan.interval + 1) * rate
      && plan.measurementBegin == w.measurementBegin && plan.measurementEnd == w.measurementEnd
  {
    WorkerRateIsPart(w, worker);
    GreatestFit(NANOSECONDS_PER_SECOND, WorkerClients(w, worker) * w.requestRatePerClient);
  }

  /** The workers start one after the other, each one interval of the whole run's rate behind the one before. */
  lemma StartsAreStaggered(w: Workload, worker: nat)
    requires w.Configured() && w.RateSupported() && worker + 1 < w.workerCount
    ensures PlanOf(w, 0).start == w.workloadBegin
    ensures var step, rate := PlanOf(w, worker + 1).start - PlanOf(w, worker).start,
                              w.clientCount * w.requestRatePerClient;
      step * rate <= 1_000_000_000 < (step + 1) * rate
  {
    AtLeastEither(w.clientCount, w.requestRatePerClient);
    GreatestFit(NANOSECONDS_PER_SECOND, w.AggregateRate());
    var step := NANOSECONDS_PER_SECOND / w.AggregateRate();
    OneMore(step, worker);
    assert PlanOf(w, worker + 1).start - PlanOf(w, worker).start == step;
  }

  lemma OneMore(step: nat, n: nat)
    ensures step * (n + 1) == step * n + step && step * 0 == 0
  {
  }

  // ---------- The merged result ----------

  datatype WorkerResult = WorkerResult(tally: Tally, failed: bool)

  function Accepted(r: WorkerResult): int { r.tally.accepted }

  function Completed(r: WorkerResult): int { r.tally.completed }

  function Missed(r: WorkerResult): int { r.tally.missedSchedule }

  function Rejected(r: WorkerResult): int { r.tally.sendRejected }

  function TimedOut(r: WorkerResult): int { r.tally.timeout }

  function CutOff(r: WorkerResult): int { r.tally.unexpectedDisconnect }

  function Samples(r: WorkerResult): int { |r.tally.roundTrips| }

  predicate SamplesMatch(t: Tally) {
    |t.roundTrips| == |t.serverProcessing| == |t.schedulerLag|
  }

  /** The first worker that failed, whose error is the one reported. */
  ghost predicate FirstFailure(results: seq<WorkerResult>, failed: Option<nat>) {
    match failed
    case None => forall i | 0 <= i < |results| :: !results[i].failed
    case Some(k) => k < |results| && results[k].failed && forall i | 0 <= i < k :: !results[i].failed
  }

  function Merged(a: Tally, b: Tally): Tally {
    Tally(a.accepted + b.accepted, a.completed + b.completed, a.sendRejected + b.sendRejected, a.timeout + b.timeout,
          a.unexpectedDisconnect + b.unexpectedDisconnect, a.missedSchedule + b.missedSchedule,
          a.roundTrips + b.roundTrips, a.serverProcessing + b.serverProcessing, a.schedulerLag + b.schedulerLag)
  }

  function MergeAll(results: seq<WorkerResult>): Tally {
    if results == [] then EMPTY_TALLY
    else Merged(MergeAll(results[..|results| - 1]), results[|results| - 1].tally)
  }

  /** Adds up the workers' results in order. */
  method AccumulateWorkerResults(results: seq<WorkerResult>) returns (merged: Tally, failed: Option<nat>)
    ensures merged == MergeAll(results) && FirstFailure(results, failed)
  {
    merged, failed := EMPTY_TALLY, None;
    for workerIndex := 0 to |results|
      invariant merged == MergeAll(results[..workerIndex]) && FirstFailure(results[..workerIndex], failed)
    {
      assert results[..workerIndex + 1][..workerIndex] == results[..workerIndex];
      merged := Merged(merged, results[workerIndex].tally);
      if failed.None? && results[workerIndex].failed {
        failed := Some(workerIndex);
      }
    }
    assert results[..|results|] == results;
  }

  /** The workers' lists, one behind the other. */
  function Joined(results: seq<WorkerResult>, list: Tally -> seq<int>): seq<int> {
    if results == [] then []
    else Joined(results[..|results| - 1], list) + list(results[|results| - 1].tally)
  }

  /** Nothing is lost or moved in the merge: every count is the sum of the workers', every list theirs in order. */
  lemma {:induction false} MergeAddsUp(results: seq<WorkerResult>)
    ensures var t := MergeAll(results);
      && t.accepted == Sum(results, Accepted) && t.completed == Sum(results, Completed)
      && t.sendRejected == Sum(results, Rejected) && t.timeout == Sum(results, TimedOut)
      && t.unexpectedDisconnect == Sum(results, CutOff) && t.missedSchedule == Sum(results, Missed)
      && t.roundTrips == Joined(results, (t: Tally) => t.roundTrips)
      && t.serverProcessing == Joined(results, (t: Tally) => t.serverProcessing)
      && t.schedulerLag == Joined(results, (t: Tally) => t.schedulerLag)
      && |t.roundTrips| == Sum(results, Samples)
    ensures (forall i | 0 <= i < |results| :: SamplesMatch(results[i].tally)) ==> SamplesMatch(MergeAll(results))
  {
    if results != [] {
      MergeAddsUp(results[..|results| - 1]);
      SumOfLast(results, Accepted);
      SumOfLast(results, Completed);
      SumOfLast(results, Rejected);
      SumOfLast(results, TimedOut);
      SumOfLast(results, CutOff);
      SumOfLast(results, Missed);
      SumOfLast(results, Samples);
    }
  }

  /** The check at the end of Run. */
  predicate PassesValidityCheck(t: Tally) {
    t.sendRejected == 0 && t.unexpectedDisconnect == 0 && t.timeout == 0 && t.accepted == t.completed
  }

  /**
   When every worker settled, the final check of Run can never fail: it only repeats what the workers guarantee. And the
   samples are exactly the measured requests of all workers.
   */
  lemma SettledRunIsValid(plans: seq<Plan>, sends: seq<seq<Send>>, results: seq<WorkerResult>)
    requires |plans| == |sends| == |results|
    requires forall i | 0 <= i < |results| :: Settled(plans[i], sends[i], results[i].tally)
    ensures PassesValidityCheck(MergeAll(results)) && SamplesMatch(MergeAll(results))
    ensures |MergeAll(results).roundTrips| == MeasuredInAll(plans, sends)
  {
    MergeAddsUp(results);
    SumsAgree(results, Accepted, Completed);
    SumWhenZero(results, Rejected);
    SumWhenZero(results, TimedOut);
    SumWhenZero(results, CutOff);
    SamplesAreMeasured(plans, sends, results);
  }

  function MeasuredInAll(plans: seq<Plan>, sends: seq<seq<Send>>): nat
    requires |plans| == |sends|
  {
    if plans == [] then 0
    else
      var last := |plans| - 1;
      MeasuredInAll(plans[..last], sends[..last]) + CountMeasured(plans[last], sends[last])
  }

  lemma {:induction false} SamplesAreMeasured(plans: seq<Plan>, sends: seq<seq<Send>>, results: seq<WorkerResult>)
    requires |plans| == |sends| == |results|
    requires forall i | 0 <= i < |results| :: Settled(plans[i], sends[i], results[i].tally)
    ensures Sum(results, Samples) == MeasuredInAll(plans, sends)
  {
    if plans != [] {
      var last := |plans| - 1;
      SamplesAreMeasured(plans[..last], sends[..last], results[..last]);
      SumOfLast(results, Samples);
    }
  }
}
