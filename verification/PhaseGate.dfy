/** The phase gates of the merged world artifact, and what a valid verdict means. Ratios are exact rationals. */
module PhaseGate {
  import opened Prelude
  import opened Statistics

  const P99_LIMIT_NANOSECONDS := 16_670_000
  const CANONICAL_TICK_RATE_HZ := 60
  const CANONICAL_ROUND_DURATION_TICKS := 10_800
  const CANONICAL_CLIENT_COUNT := 100
  const NANOSECONDS_PER_SECOND := 1_000_000_000

  /** One line of the tick samples; a field is None when it is missing or no unsigned number. */
  datatype TickSample = TickSample(firstServerTick: Option<uint64>, duration: Option<uint64>, lag: Option<uint64>)

  datatype Phase = Phase(startSecond: nat, endSecond: nat)

  const PHASES := [Phase(10, 60), Phase(60, 120), Phase(120, 180)]

  predicate IsUsable(sample: TickSample, roundStart: nat) {
    && sample.firstServerTick.Some? && sample.duration.Some? && sample.lag.Some?
    && sample.firstServerTick.value >= roundStart
    && sample.duration.value <= INT64_MAX && sample.lag.value <= INT64_MAX
  }

  predicate AllUsable(samples: seq<TickSample>, roundStart: nat) {
    forall i | 0 <= i < |samples| :: IsUsable(samples[i], roundStart)
  }

  function Unusable(samples: seq<TickSample>, roundStart: nat): nat {
    UnusableTo(samples, |samples|, roundStart)
  }

  /** Among the first `n`. */
  function UnusableTo(samples: seq<TickSample>, n: nat, roundStart: nat): nat
    requires n <= |samples|
  {
    if n == 0 then 0
    else UnusableTo(samples, n - 1, roundStart) + (if IsUsable(samples[n - 1], roundStart) then 0 else 1)
  }

  /** The sample belongs to the ticks from `first` up to `end` after the round's start. */
  predicate Within(sample: TickSample, roundStart: nat, first: nat, end: nat) {
    IsUsable(sample, roundStart) && first <= sample.firstServerTick.value - roundStart < end
  }

  /** The usable samples of a stretch of ticks, in order. */
  function Selected(samples: seq<TickSample>, roundStart: nat, first: nat, end: nat): seq<TickSample> {
    SelectedTo(samples, |samples|, roundStart, first, end)
  }

  /** Those among the first `n`. */
  function SelectedTo(samples: seq<TickSample>, n: nat, roundStart: nat, first: nat, end: nat): seq<TickSample>
    requires n <= |samples|
  {
    if n == 0 then []
    else
      SelectedTo(samples, n - 1, roundStart, first, end)
      + (if Within(samples[n - 1], roundStart, first, end) then [samples[n - 1]] else [])
  }

  function Durations(samples: seq<TickSample>): seq<int> {
    if samples == [] then []
    else
      var last := samples[|samples| - 1];
      Durations(samples[..|samples| - 1]) + [if last.duration.Some? then last.duration.value else 0]
  }

  function Lags(samples: seq<TickSample>): seq<int> {
    if samples == [] then []
    else
      var last := samples[|samples| - 1];
      Lags(samples[..|samples| - 1]) + [if last.lag.Some? then last.lag.value else 0]
  }

  function Overruns(durations: seq<int>, budget: nat): nat {
    if durations == [] then 0
    else Overruns(durations[..|durations| - 1], budget) + (if durations[|durations| - 1] > budget then 1 else 0)
  }

  /** `overrunCount / sampleCount` is below one in a hundred. */
  predicate RatioBelowOnePercent(overrunCount: nat, sampleCount: nat) {
    100 * overrunCount < sampleCount || sampleCount == 0
  }

  datatype Summary = Summary(
    sampleCount: nat, overrunCount: nat, execution: Option<LatencyStatistics>, startLag: Option<LatencyStatistics>,
    p99Passed: bool, overrunRatioPassed: bool, passed: bool)

  function Ticks(seconds: nat, tickRateHz: nat): nat { seconds * tickRateHz }

  /** How long a tick may take, in nanoseconds. */
  function TickBudget(tickRateHz: nat): nat
    requires tickRateHz > 0
  {
    NANOSECONDS_PER_SECOND / tickRateHz
  }

  /** The samples of a phase. */
  function InPhase(samples: seq<TickSample>, phase: Phase, tickRateHz: nat, roundStart: nat): seq<TickSample> {
    Selected(samples, roundStart, Ticks(phase.startSecond, tickRateHz), Ticks(phase.endSecond, tickRateHz))
  }

  // ---------- Building a summary ----------

  lemma ColumnsAppend(selected: seq<TickSample>, sample: TickSample, budget: nat)
    requires sample.duration.Some? && sample.lag.Some?
    ensures Durations(selected + [sample]) == Durations(selected) + [sample.duration.value]
    ensures Lags(selected + [sample]) == Lags(selected) + [sample.lag.value]
    ensures Overruns(Durations(selected) + [sample.duration.value], budget)
         == Overruns(Durations(selected), budget) + (if sample.duration.value > budget then 1 else 0)
  {
    assert (selected + [sample])[..|selected|] == selected;
    var durations := Durations(selected);
    assert (durations + [sample.duration.value])[..|durations|] == durations;
  }

  lemma {:induction false} ColumnsKeepLength(selected: seq<TickSample>)
    ensures |Durations(selected)| == |Lags(selected)| == |selected|
  {
    if selected != [] {
      ColumnsKeepLength(selected[..|selected| - 1]);
    }
  }

  /** Collects a stretch's samples in one pass; `errors` counts the unusable ones. */
  method CollectPhase(samples: seq<TickSample>, roundStart: nat, startOffset: nat, endOffset: nat, tickBudget: nat)
    returns (executionDurations: seq<int>, startLags: seq<int>, overrunCount: nat, errors: nat)
    ensures var selected := Selected(samples, roundStart, startOffset, endOffset);
      && executionDurations == Durations(selected) && startLags == Lags(selected)
      && overrunCount == Overruns(executionDurations, tickBudget)
    ensures errors == Unusable(samples, roundStart)
  {
    executionDurations, startLags, overrunCount, errors := [], [], 0, 0;
    ghost var selected: seq<TickSample> := [];
    for i := 0 to |samples|
      invariant selected == SelectedTo(samples, i, roundStart, startOffset, endOffset)
      invariant executionDurations == Durations(selected) && startLags == Lags(selected)
      invariant overrunCount == Overruns(executionDurations, tickBudget)
      invariant errors == UnusableTo(samples, i, roundStart)
    {
      var sample := samples[i];
      if !IsUsable(sample, roundStart) {
        errors := errors + 1;
        continue;
      }
      var offset := sample.firstServerTick.value - roundStart;
      if offset < startOffset || offset >= endOffset {
        continue;
      }
      ColumnsAppend(selected, sample, tickBudget);
      executionDurations := executionDurations + [sample.duration.value];
      startLags := startLags + [sample.lag.value];
      if sample.duration.value > tickBudget {
        overrunCount := overrunCount + 1;
      }
      selected := selected + [sample];
    }
  }

  /** The summary tells the truth about the selected samples, and its flags are the two gates. */
  ghost predicate Describes(summary: Summary, selected: seq<TickSample>, tickBudget: nat) {
    && summary.sampleCount == |selected|
    && summary.overrunCount == Overruns(Durations(selected), tickBudget)
    && (selected == [] ==> !summary.passed && !summary.p99Passed && !summary.overrunRatioPassed)
    && (selected != [] ==>
          && summary.execution.Some? && Summarizes(Durations(selected), summary.execution.value)
          && summary.startLag.Some? && Summarizes(Lags(selected), summary.startLag.value)
          && summary.p99Passed == (summary.execution.value.p99 < P99_LIMIT_NANOSECONDS)
          && summary.overrunRatioPassed == RatioBelowOnePercent(summary.overrunCount, summary.sampleCount)
          && summary.passed == (summary.p99Passed && summary.overrunRatioPassed))
  }

  /** Summarises one phase; `errors` counts the complaints added. */
  method BuildPhaseSummary(samples: seq<TickSample>, phase: Phase, tickRateHz: uint64, roundStart: uint64)
    returns (summary: Summary, errors: nat)
    requires tickRateHz > 0
    ensures Describes(summary, InPhase(samples, phase, tickRateHz, roundStart), TickBudget(tickRateHz))
    ensures errors == Unusable(samples, roundStart) + (if summary.sampleCount == 0 then 1 else 0)
  {
    ghost var selected := InPhase(samples, phase, tickRateHz, roundStart);
    var executionDurations, startLags, overrunCount, unusable := CollectPhase(
      samples, roundStart, Ticks(phase.startSecond, tickRateHz), Ticks(phase.endSecond, tickRateHz),
      TickBudget(tickRateHz));
    ColumnsKeepLength(selected);
    errors := unusable;
    var execution := SummarizeLatency(executionDurations);
    var lag := SummarizeLatency(startLags);
    if execution.Some? && lag.Some? {
      var p99Passed := execution.value.p99 < P99_LIMIT_NANOSECONDS;
      var overrunRatioPassed := RatioBelowOnePercent(overrunCount, |executionDurations|);
      summary := Summary(|executionDurations|, overrunCount, execution, lag, p99Passed, overrunRatioPassed,
                         p99Passed && overrunRatioPassed);
    } else {
      errors := errors + 1;
      summary := Summary(|executionDurations|, overrunCount, None, None, false, false, false);
    }
  }

  // ---------- The gates ----------

  lemma {:induction false} CountAppends(s: seq<int>, x: int, y: int)
    ensures CountAtMost(s + [x], y) == CountAtMost(s, y) + (if x <= y then 1 else 0)
  {
    if s == [] {
      assert s + [x] == [x];
    } else {
      CountAppends(s[1..], x, y);
      assert (s + [x])[1..] == s[1..] + [x];
    }
  }

  lemma {:induction false} OverrunsAreTheRest(durations: seq<int>, budget: nat)
    ensures Overruns(durations, budget) + CountAtMost(durations, budget) == |durations|
  {
    if durations != [] {
      var front, last := durations[..|durations| - 1], durations[|durations| - 1];
      OverrunsAreTheRest(front, budget);
      CountAppends(front, last, budget);
      assert durations == front + [last];
    }
  }

  /** The 99th percentile is within a budget exactly when at most one sample in a hundred overruns it. */
  lemma P99WithinBudgetIff(durations: seq<int>, budget: nat, p99: int)
    requires durations != [] && IsPercentile(durations, 99, p99)
    ensures p99 <= budget <==> 100 * Overruns(durations, budget) <= |durations|
  {
    OverrunsAreTheRest(durations, budget);
    if p99 <= budget {
      CountGrows(durations, p99, budget);
    }
  }

  lemma {:induction false} CountGrows(s: seq<int>, x: int, y: int)
    requires x <= y
    ensures CountAtMost(s, x) <= CountAtMost(s, y)
  {
    if s != [] {
      CountGrows(s[1..], x, y);
    }
  }

  /**
   At the canonical rate the overrun gate implies the p99 gate, so a phase passes exactly when the overrun gate does.
   */
  lemma OverrunGateImpliesP99Gate(durations: seq<int>, p99: int)
    requires durations != [] && IsPercentile(durations, 99, p99)
    requires RatioBelowOnePercent(Overruns(durations, TickBudget(CANONICAL_TICK_RATE_HZ)), |durations|)
    ensures p99 <= TickBudget(CANONICAL_TICK_RATE_HZ) < P99_LIMIT_NANOSECONDS
  {
    P99WithinBudgetIff(durations, TickBudget(CANONICAL_TICK_RATE_HZ), p99);
  }

  // ---------- The verdict ----------

  /** What Write finds in the other artifacts; the profile is what it reads from the two configurations. */
  datatype Findings = Findings(
    identityValid: bool, artifactsComplete: bool, clientGatePassed: bool, otherErrors: nat, tickRateHz: uint64,
    roundDurationTicks: uint64, clientCount: uint64)

  predicate IsCanonical(f: Findings) {
    && f.tickRateHz == CANONICAL_TICK_RATE_HZ && f.roundDurationTicks == CANONICAL_ROUND_DURATION_TICKS
    && f.clientCount == CANONICAL_CLIENT_COUNT
  }

  function RoundStart(samples: seq<TickSample>): uint64 {
    if samples != [] && samples[0].firstServerTick.Some? then samples[0].firstServerTick.value else 0
  }

  predicate KeepsPace(durations: seq<int>, tickBudget: nat) {
    durations != [] && RatioBelowOnePercent(Overruns(durations, tickBudget), |durations|)
  }

  /** The one gate left: the phase has samples, and fewer than one in a hundred took longer than a tick. */
  predicate PhaseKeepsPace(samples: seq<TickSample>, phase: Phase, tickRateHz: uint64)
    requires tickRateHz > 0
  {
    KeepsPace(Durations(InPhase(samples, phase, tickRateHz, RoundStart(samples))), TickBudget(tickRateHz))
  }

  predicate AllPhasesKeepPace(samples: seq<TickSample>, tickRateHz: uint64)
    requires tickRateHz > 0
  {
    forall k | 0 <= k < |PHASES| :: PhaseKeepsPace(samples, PHASES[k], tickRateHz)
  }

  /** The summaries describe the first phases, and `errors` counts the complaints so far. */
  ghost predicate DescribesPhases(summaries: seq<Summary>, samples: seq<TickSample>, tickRateHz: uint64)
    requires tickRateHz > 0
  {
    && |summaries| <= |PHASES|
    && forall k | 0 <= k < |summaries| ::
         Describes(summaries[k], InPhase(samples, PHASES[k], tickRateHz, RoundStart(samples)), TickBudget(tickRateHz))
  }

  predicate AllPassed(summaries: seq<Summary>) {
    forall k | 0 <= k < |summaries| :: summaries[k].passed
  }

  predicate AllSampled(summaries: seq<Summary>) {
    forall k | 0 <= k < |summaries| :: summaries[k].sampleCount > 0
  }

  lemma OneMorePhase(summaries: seq<Summary>, summary: Summary, samples: seq<TickSample>, tickRateHz: uint64)
    requires tickRateHz > 0 && DescribesPhases(summaries, samples, tickRateHz) && |summaries| < |PHASES|
    requires Describes(summary, InPhase(samples, PHASES[|summaries|], tickRateHz, RoundStart(samples)),
                       TickBudget(tickRateHz))
    ensures DescribesPhases(summaries + [summary], samples, tickRateHz)
  {
    var more := summaries + [summary];
    forall k | 0 <= k < |more|
      ensures Describes(more[k], InPhase(samples, PHASES[k], tickRateHz, RoundStart(samples)), TickBudget(tickRateHz))
    {
      assert more[k] == if k < |summaries| then summaries[k] else summary;
    }
  }

  lemma FlagsAppend(summaries: seq<Summary>, summary: Summary)
    ensures AllPassed(summaries + [summary]) <==> AllPassed(summaries) && summary.passed
    ensures AllSampled(summaries + [summary]) <==> AllSampled(summaries) && summary.sampleCount > 0
  {
    var more := summaries + [summary];
    assert forall k | 0 <= k < |summaries| :: more[k] == summaries[k];
    assert more[|summaries|] == summary;
  }

  /** The phase loop of Write. */
  method SummarisePhases(samples: seq<TickSample>, tickRateHz: uint64)
    returns (summaries: seq<Summary>, phasesPassed: bool, errors: nat)
    requires tickRateHz > 0 && RoundStart(samples) != 0
    ensures DescribesPhases(summaries, samples, tickRateHz) && |summaries| == |PHASES|
    ensures phasesPassed <==> AllPassed(summaries)
    ensures errors == 0 <==> Unusable(samples, RoundStart(samples)) == 0 && AllSampled(summaries)
  {
    summaries, phasesPassed, errors := [], true, 0;
    for k := 0 to |PHASES|
      invariant DescribesPhases(summaries, samples, tickRateHz) && |summaries| == k
      invariant phasesPassed <==> AllPassed(summaries)
      invariant errors == 0 <==> ((k > 0 ==> Unusable(samples, RoundStart(samples)) == 0) && AllSampled(summaries))
    {
      var summary, added := BuildPhaseSummary(samples, PHASES[k], tickRateHz, RoundStart(samples));
      OneMorePhase(summaries, summary, samples, tickRateHz);
      FlagsAppend(summaries, summary);
      phasesPassed := phasesPassed && summary.passed;
      summaries := summaries + [summary];
      errors := errors + added;
    }
  }

  /** Everything a valid verdict says; the p99 gate is implied. */
  ghost predicate IsValid(f: Findings, samples: seq<TickSample>) {
    && f.identityValid && f.artifactsComplete && f.clientGatePassed && f.otherErrors == 0 && IsCanonical(f)
    && RoundStart(samples) != 0 && AllUsable(samples, RoundStart(samples))
    && AllPhasesKeepPace(samples, CANONICAL_TICK_RATE_HZ)
  }

  /** Assembles the verdict; without loaded samples `samples` is empty. */
  method Verdict(f: Findings, samples: seq<TickSample>) returns (valid: bool, summaries: seq<Summary>)
    ensures valid <==> IsValid(f, samples)
    ensures f.tickRateHz != 0 && RoundStart(samples) != 0 ==>
      && DescribesPhases(summaries, samples, f.tickRateHz)
      && PhasesTell(summaries, samples, RoundStart(samples), f.tickRateHz)
  {
    summaries := [];
    var errors := f.otherErrors;
    if !IsCanonical(f) {
      errors := errors + 1;
    }
    if RoundStart(samples) == 0 {
      errors := errors + 1;
    }
    var phasesPassed := f.tickRateHz != 0 && RoundStart(samples) != 0;
    if phasesPassed {
      var added;
      summaries, phasesPassed, added := SummarisePhases(samples, f.tickRateHz);
      errors := errors + added;
      SummariesTell(summaries, samples, f.tickRateHz);
      UsableIff(samples, RoundStart(samples));
      if IsCanonical(f) {
        PassedIffKeepsPace(samples, summaries);
      }
    }
    valid :=
      f.identityValid && f.artifactsComplete && IsCanonical(f) && phasesPassed && f.clientGatePassed && errors == 0;
  }

  /** At the canonical rate all phases pass exactly when all keep pace. */
  lemma PassedIffKeepsPace(samples: seq<TickSample>, summaries: seq<Summary>)
    requires DescribesPhases(summaries, samples, CANONICAL_TICK_RATE_HZ) && |summaries| == |PHASES|
    ensures AllPassed(summaries) <==> AllPhasesKeepPace(samples, CANONICAL_TICK_RATE_HZ)
    ensures AllPassed(summaries) ==> AllSampled(summaries)
  {
    forall k | 0 <= k < |summaries|
      ensures summaries[k].passed <==> PhaseKeepsPace(samples, PHASES[k], CANONICAL_TICK_RATE_HZ)
      ensures summaries[k].passed ==> summaries[k].sampleCount > 0
    {
      var selected := InPhase(samples, PHASES[k], CANONICAL_TICK_RATE_HZ, RoundStart(samples));
      OnePassedIff(selected, summaries[k]);
    }
  }

  lemma OnePassedIff(selected: seq<TickSample>, summary: Summary)
    requires Describes(summary, selected, TickBudget(CANONICAL_TICK_RATE_HZ))
    ensures summary.passed <==> KeepsPace(Durations(selected), TickBudget(CANONICAL_TICK_RATE_HZ))
    ensures summary.passed ==> summary.sampleCount > 0
  {
    ColumnsKeepLength(selected);
    if selected != [] && summary.overrunRatioPassed {
      OverrunGateImpliesP99Gate(Durations(selected), summary.execution.value.p99);
    }
  }

  lemma UsableIff(samples: seq<TickSample>, roundStart: nat)
    ensures Unusable(samples, roundStart) == 0 <==> AllUsable(samples, roundStart)
  {
    UsableToIff(samples, |samples|, roundStart);
  }

  lemma {:induction false} UsableToIff(samples: seq<TickSample>, n: nat, roundStart: nat)
    requires n <= |samples|
    ensures UnusableTo(samples, n, roundStart) == 0 <==> forall i | 0 <= i < n :: IsUsable(samples[i], roundStart)
  {
    if n > 0 {
      UsableToIff(samples, n - 1, roundStart);
    }
  }

  // ---------- The summaries and the verdict, read off the samples ----------

  /** The budget is the greatest whole number of nanoseconds that fits: ticks that overrun it miss the rate. */
  lemma OverrunsIff(duration: nat, tickRateHz: nat)
    requires tickRateHz > 0
    ensures duration > TickBudget(tickRateHz) <==> duration * tickRateHz > 1_000_000_000
  {
    var budget := TickBudget(tickRateHz);
    assert budget * tickRateHz <= 1_000_000_000 < budget * tickRateHz + tickRateHz;
    if duration > budget {
      Multiplied(budget + 1, duration, tickRateHz);
      assert (budget + 1) * tickRateHz == budget * tickRateHz + tickRateHz;
    } else {
      Multiplied(duration, budget, tickRateHz);
    }
  }

  lemma Multiplied(a: nat, b: nat, c: nat)
    requires a <= b
    ensures a * c <= b * c
  {
  }

  /** The sample's three numbers are there and fit 63 bits, and its tick lies in the stretch. */
  predicate IsIn(sample: TickSample, first: nat, end: nat) {
    && sample.firstServerTick.Some? && first <= sample.firstServerTick.value < end
    && sample.duration.Some? && sample.duration.value <= 0x7FFF_FFFF_FFFF_FFFF
    && sample.lag.Some? && sample.lag.value <= 0x7FFF_FFFF_FFFF_FFFF
  }

  /** How many samples in a stretch of ticks took a time of some kind. */
  function CountIn(samples: seq<TickSample>, first: nat, end: nat, kind: nat -> bool): nat {
    CountTo(samples, |samples|, first, end, kind)
  }

  function CountTo(samples: seq<TickSample>, n: nat, first: nat, end: nat, kind: nat -> bool): nat
    requires n <= |samples|
  {
    if n == 0 then 0
    else
      CountTo(samples, n - 1, first, end, kind)
      + (if IsIn(samples[n - 1], first, end) && kind(samples[n - 1].duration.value) then 1 else 0)
  }

  lemma {:induction false} SelectedAreIn(samples: seq<TickSample>, n: nat, roundStart: nat, first: nat, end: nat,
                                         kind: nat -> bool)
    requires n <= |samples| && forall d: nat :: kind(d)
    ensures |SelectedTo(samples, n, roundStart, first, end)|
         == CountTo(samples, n, roundStart + first, roundStart + end, kind)
  {
    if n > 0 {
      SelectedAreIn(samples, n - 1, roundStart, first, end, kind);
    }
  }

  lemma {:induction false} OverrunsAreIn(samples: seq<TickSample>, n: nat, roundStart: nat, first: nat, end: nat,
                                         budget: nat, kind: nat -> bool)
    requires n <= |samples| && forall d: nat :: kind(d) <==> d > budget
    ensures Overruns(Durations(SelectedTo(samples, n, roundStart, first, end)), budget)
         == CountTo(samples, n, roundStart + first, roundStart + end, kind)
  {
    if n > 0 {
      OverrunsAreIn(samples, n - 1, roundStart, first, end, budget, kind);
      var earlier := SelectedTo(samples, n - 1, roundStart, first, end);
      if Within(samples[n - 1], roundStart, first, end) {
        ColumnsAppend(earlier, samples[n - 1], budget);
      } else {
        assert SelectedTo(samples, n, roundStart, first, end) == earlier;
      }
    }
  }

  /** The three counts a summary's numbers and gates come from. */
  lemma CountsAre(samples: seq<TickSample>, roundStart: nat, first: nat, end: nat, tickRateHz: nat)
    requires tickRateHz > 0
    ensures var selected := Selected(samples, roundStart, first, end);
      && |Durations(selected)| == |selected| == CountIn(samples, roundStart + first, roundStart + end, _ => true)
      && Overruns(Durations(selected), TickBudget(tickRateHz))
         == CountIn(samples, roundStart + first, roundStart + end, d => d * tickRateHz > 1_000_000_000)
      && Overruns(Durations(selected), 16_669_999)
         == CountIn(samples, roundStart + first, roundStart + end, d => d >= 16_670_000)
  {
    SelectedAreIn(samples, |samples|, roundStart, first, end, _ => true);
    forall d: nat
      ensures d > TickBudget(tickRateHz) <==> d * tickRateHz > 1_000_000_000
    {
      OverrunsIff(d, tickRateHz);
    }
    OverrunsAreIn(samples, |samples|, roundStart, first, end, TickBudget(tickRateHz),
                  d => d * tickRateHz > 1_000_000_000);
    OverrunsAreIn(samples, |samples|, roundStart, first, end, 16_669_999, d => d >= 16_670_000);
    ColumnsKeepLength(Selected(samples, roundStart, first, end));
  }

  /** What a summary of the ticks from `first` up to `end` says. */
  ghost predicate Tells(summary: Summary, samples: seq<TickSample>, first: nat, end: nat, tickRateHz: nat) {
    var count := CountIn(samples, first, end, _ => true);
    var overruns := CountIn(samples, first, end, d => d * tickRateHz > 1_000_000_000);
    var slow := CountIn(samples, first, end, d => d >= 16_670_000);
    && summary.sampleCount == count && summary.overrunCount == overruns
    && (summary.overrunRatioPassed <==> 100 * overruns < count)
    && (summary.p99Passed <==> count > 0 && 100 * slow <= count)
    && (summary.passed <==> summary.overrunRatioPassed && summary.p99Passed)
  }

  /**
   A summary, read off the samples: how many lie in its stretch of ticks, how many of those take longer than a tick at
   the rate, and the two gates: fewer than one in a hundred of those, and at most one in a hundred of 16.67 ms or more.
   */
  lemma SummaryTells(summary: Summary, samples: seq<TickSample>, roundStart: nat, first: nat, end: nat, tickRateHz: nat)
    requires tickRateHz > 0
    requires Describes(summary, Selected(samples, roundStart, first, end), TickBudget(tickRateHz))
    ensures Tells(summary, samples, roundStart + first, roundStart + end, tickRateHz)
  {
    CountsAre(samples, roundStart, first, end, tickRateHz);
    GatesAre(summary, Selected(samples, roundStart, first, end), TickBudget(tickRateHz));
  }

  lemma GatesAre(summary: Summary, selected: seq<TickSample>, budget: nat)
    requires Describes(summary, selected, budget) && |Durations(selected)| == |selected|
    ensures summary.sampleCount == |selected| && summary.overrunCount == Overruns(Durations(selected), budget)
    ensures summary.overrunRatioPassed <==> 100 * Overruns(Durations(selected), budget) < |selected|
    ensures summary.p99Passed <==> selected != [] && 100 * Overruns(Durations(selected), 16_669_999) <= |selected|
    ensures summary.passed <==> summary.overrunRatioPassed && summary.p99Passed
  {
    if selected != [] {
      P99WithinBudgetIff(Durations(selected), 16_669_999, summary.execution.value.p99);
    }
  }

  /** Every number of every sample is there, fits, and is no earlier than the round. */
  predicate AllReadable(samples: seq<TickSample>, roundStart: nat) {
    forall i | 0 <= i < |samples| :: IsIn(samples[i], roundStart, UINT64_MAX + 1)
  }

  /** Every sample is readable or counted as a complaint. */
  lemma {:induction false} UnusableAreTheRest(samples: seq<TickSample>, n: nat, roundStart: nat)
    requires n <= |samples|
    ensures UnusableTo(samples, n, roundStart) + CountTo(samples, n, roundStart, UINT64_MAX + 1, _ => true) == n
  {
    if n > 0 {
      UnusableAreTheRest(samples, n - 1, roundStart);
    }
  }

  /** Fewer than one in a hundred of the samples in these ticks take longer than a sixtieth of a second. */
  ghost predicate HoldsSixtyHertz(samples: seq<TickSample>, first: nat, end: nat) {
    100 * CountIn(samples, first, end, d => d * 60 > 1_000_000_000) < CountIn(samples, first, end, _ => true)
  }

  lemma PaceIs(samples: seq<TickSample>, phase: Phase)
    ensures var start := RoundStart(samples);
      PhaseKeepsPace(samples, phase, 60)
      <==> HoldsSixtyHertz(samples, start + phase.startSecond * 60, start + phase.endSecond * 60)
  {
    CountsAre(samples, RoundStart(samples), Ticks(phase.startSecond, 60), Ticks(phase.endSecond, 60), 60);
  }

  /**
   A verdict is valid exactly for a run of 10,800 ticks at 60 Hz with 100 clients and nothing else to complain of, whose
   first sample names the round's tick, whose samples can all be read, and where from second 10, 60 and 120 up to second
   60, 120 and 180 fewer than one tick in a hundred takes longer than a sixtieth of a second.
   */
  lemma ValidIff(f: Findings, samples: seq<TickSample>)
    ensures IsValid(f, samples) <==>
      && f.identityValid && f.artifactsComplete && f.clientGatePassed && f.otherErrors == 0
      && f.tickRateHz == 60 && f.roundDurationTicks == 10_800 && f.clientCount == 100
      && samples != [] && samples[0].firstServerTick.Some?
      && var start := samples[0].firstServerTick.value;
         && start > 0 && AllReadable(samples, start)
         && HoldsSixtyHertz(samples, start + 600, start + 3_600)
         && HoldsSixtyHertz(samples, start + 3_600, start + 7_200)
         && HoldsSixtyHertz(samples, start + 7_200, start + 10_800)
  {
    assert PHASES[0] == Phase(10, 60) && PHASES[1] == Phase(60, 120) && PHASES[2] == Phase(120, 180);
    PaceIs(samples, PHASES[0]);
    PaceIs(samples, PHASES[1]);
    PaceIs(samples, PHASES[2]);
    if samples != [] && samples[0].firstServerTick.Some? {
      forall i | 0 <= i < |samples|
        ensures IsUsable(samples[i], RoundStart(samples)) <==> IsIn(samples[i], RoundStart(samples), UINT64_MAX + 1)
      {
      }
      assert AllUsable(samples, RoundStart(samples)) <==> AllReadable(samples, RoundStart(samples));
    }
  }

  /** The three summaries are of the seconds 10 to 60, 60 to 120 and 120 to 180 of the round. */
  ghost predicate PhasesTell(summaries: seq<Summary>, samples: seq<TickSample>, start: nat, tickRateHz: nat) {
    && |summaries| == 3
    && Tells(summaries[0], samples, start + 10 * tickRateHz, start + 60 * tickRateHz, tickRateHz)
    && Tells(summaries[1], samples, start + 60 * tickRateHz, start + 120 * tickRateHz, tickRateHz)
    && Tells(summaries[2], samples, start + 120 * tickRateHz, start + 180 * tickRateHz, tickRateHz)
  }

  lemma PhaseTells(summaries: seq<Summary>, samples: seq<TickSample>, tickRateHz: uint64, k: nat, phase: Phase)
    requires tickRateHz > 0 && DescribesPhases(summaries, samples, tickRateHz) && k < |summaries|
    requires phase == PHASES[k]
    ensures Tells(summaries[k], samples, RoundStart(samples) + Ticks(phase.startSecond, tickRateHz),
                  RoundStart(samples) + Ticks(phase.endSecond, tickRateHz), tickRateHz)
  {
    SummaryTells(summaries[k], samples, RoundStart(samples), Ticks(phase.startSecond, tickRateHz),
                 Ticks(phase.endSecond, tickRateHz), tickRateHz);
  }

  lemma SummariesTell(summaries: seq<Summary>, samples: seq<TickSample>, tickRateHz: uint64)
    requires tickRateHz > 0 && DescribesPhases(summaries, samples, tickRateHz) && |summaries| == |PHASES|
    ensures PhasesTell(summaries, samples, RoundStart(samples), tickRateHz)
  {
    PhaseTells(summaries, samples, tickRateHz, 0, Phase(10, 60));
    PhaseTells(summaries, samples, tickRateHz, 1, Phase(60, 120));
    PhaseTells(summaries, samples, tickRateHz, 2, Phase(120, 180));
  }

  lemma {:induction false} StretchesAdd(samples: seq<TickSample>, n: nat, a: nat, b: nat, c: nat, kind: nat -> bool)
    requires n <= |samples| && a <= b <= c
    ensures CountTo(samples, n, a, b, kind) + CountTo(samples, n, b, c, kind) == CountTo(samples, n, a, c, kind)
  {
    if n > 0 {
      StretchesAdd(samples, n - 1, a, b, c, kind);
    }
  }

  /** The three phase counts add up to the samples from second 10 up to second 180: no sample is in two phases. */
  lemma PhaseCountsAddUp(samples: seq<TickSample>, summaries: seq<Summary>, start: nat, tickRateHz: nat)
    requires PhasesTell(summaries, samples, start, tickRateHz)
    ensures summaries[0].sampleCount + summaries[1].sampleCount + summaries[2].sampleCount
         == CountIn(samples, start + 10 * tickRateHz, start + 180 * tickRateHz, _ => true)
  {
    var n, begun, half, end := |samples|, start + 10 * tickRateHz, start + 120 * tickRateHz, start + 180 * tickRateHz;
    StretchesAdd(samples, n, begun, start + 60 * tickRateHz, half, _ => true);
    StretchesAdd(samples, n, begun, half, end, _ => true);
  }
}
