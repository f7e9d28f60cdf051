/**
 The fan-out behind the log queue: one envelope to a file and a console, each output abandoned at its first failure.
 A formatter that throws, a console that throws and the file's first throwing call are inputs of each call.
 */
module FanoutSink {
  import opened Prelude
  import opened LogEnvelope
  import opened RotatingFile

  // ---------- The counters, as values ----------

  /** The fan-out's fields, and which drain numbers each output has been given. */
  datatype Ledger = Ledger(
    fileFailed: bool, consoleFailed: bool, consumed: uint64, discarded: uint64, drainSequence: uint64,
    fileDrains: seq<uint64>, consoleDrains: seq<uint64>)

  /** How the steps of one Consume went; a write that was not attempted counts as not written. */
  datatype Outcome = Outcome(decoded: bool, formatted: bool, fileWritten: bool, consoleWritten: bool)

  function Increment(counter: uint64): uint64 {
    if counter == UINT64_MAX then counter else counter + 1
  }

  function AfterConsume(l: Ledger, o: Outcome): Ledger {
    if l.fileFailed && l.consoleFailed then l.(discarded := Increment(l.discarded))
    else if !o.decoded then l.(consumed := Increment(l.consumed))
    else
      var drain := Increment(l.drainSequence);
      var numbered := l.(drainSequence := drain, consumed := Increment(l.consumed));
      if !o.formatted then numbered else AfterConsole(AfterFile(numbered, o.fileWritten), o.consoleWritten)
  }

  function AfterFile(l: Ledger, written: bool): Ledger {
    if l.fileFailed then l
    else if written then l.(fileDrains := l.fileDrains + [l.drainSequence])
    else l.(fileFailed := true)
  }

  function AfterConsole(l: Ledger, written: bool): Ledger {
    if l.consoleFailed then l
    else if written then l.(consoleDrains := l.consoleDrains + [l.drainSequence])
    else l.(consoleFailed := true)
  }

  function AfterFlush(l: Ledger, fileFlushed: bool, consoleFlushed: bool): Ledger {
    l.(fileFailed := l.fileFailed || !fileFlushed, consoleFailed := l.consoleFailed || !consoleFlushed)
  }

  function InitialLedger(hasFile: bool, hasConsole: bool): Ledger {
    Ledger(!hasFile, !hasConsole, 0, 0, 0, [], [])
  }

  /** What the queue's worker calls, with how each call went. */
  datatype Call = ConsumeCall(outcome: Outcome) | FlushCall(fileFlushed: bool, consoleFlushed: bool)

  function AfterCall(l: Ledger, call: Call): Ledger {
    match call
    case ConsumeCall(outcome) => AfterConsume(l, outcome)
    case FlushCall(fileFlushed, consoleFlushed) => AfterFlush(l, fileFlushed, consoleFlushed)
  }

  /** The ledger after a whole run of records and flushes in any order. */
  function AfterRun(l: Ledger, run: seq<Call>): Ledger {
    if run == [] then l else AfterCall(AfterRun(l, run[..|run| - 1]), run[|run| - 1])
  }

  /** How many records a run holds. */
  function Records(run: seq<Call>): (n: nat)
    ensures n <= |run|
  {
    if run == [] then 0 else Records(run[..|run| - 1]) + (if run[|run| - 1].ConsumeCall? then 1 else 0)
  }

  /** Every record is counted exactly once, as consumed or as discarded, whatever fails. */
  lemma {:induction false} EveryRecordCountedOnce(hasFile: bool, hasConsole: bool, run: seq<Call>)
    requires Records(run) < UINT64_MAX
    ensures var l := AfterRun(InitialLedger(hasFile, hasConsole), run); l.consumed + l.discarded == Records(run)
  {
    if run != [] {
      EveryRecordCountedOnce(hasFile, hasConsole, run[..|run| - 1]);
    }
  }

  // ---------- What each output is given ----------

  datatype Output = File | Console

  predicate HasFailed(l: Ledger, output: Output) {
    if output.File? then l.fileFailed else l.consoleFailed
  }

  function Drains(l: Ledger, output: Output): seq<uint64> {
    if output.File? then l.fileDrains else l.consoleDrains
  }

  /** The call puts a line on the output. */
  predicate Writes(l: Ledger, call: Call, output: Output) {
    && !HasFailed(l, output) && call.ConsumeCall? && call.outcome.decoded && call.outcome.formatted
    && if output.File? then call.outcome.fileWritten else call.outcome.consoleWritten
  }

  /** The call takes a drain number for a record its formatter then throws on. */
  predicate Wastes(l: Ledger, call: Call) {
    !(l.fileFailed && l.consoleFailed) && call.ConsumeCall? && call.outcome.decoded && !call.outcome.formatted
  }

  /** A failed output stays failed and is given nothing more. */
  lemma {:induction false} FailureIsLatched(l: Ledger, run: seq<Call>, output: Output)
    requires HasFailed(l, output)
    ensures var after := AfterRun(l, run); HasFailed(after, output) && Drains(after, output) == Drains(l, output)
  {
    if run != [] {
      FailureIsLatched(l, run[..|run| - 1], output);
    }
  }

  ghost predicate StrictlyIncreasing(drains: seq<uint64>) {
    forall i, j | 0 <= i < j < |drains| :: drains[i] < drains[j]
  }

  ghost predicate AtMost(drains: seq<uint64>, bound: nat) {
    forall i | 0 <= i < |drains| :: drains[i] <= bound
  }

  /** What one call does to an output's numbers. */
  lemma CallNumbers(l: Ledger, call: Call, output: Output)
    requires l.drainSequence < UINT64_MAX
    ensures var after := AfterCall(l, call);
      && Drains(after, output) == Drains(l, output) + (if Writes(l, call, output) then [after.drainSequence] else [])
      && (Wastes(l, call) || Writes(l, call, output) ==> after.drainSequence == l.drainSequence + 1)
      && l.drainSequence <= after.drainSequence <= l.drainSequence + (if call.ConsumeCall? then 1 else 0)
      && (HasFailed(l, output) ==> HasFailed(after, output))
      && (!HasFailed(after, output) && !Wastes(l, call) && !Writes(l, call, output) ==>
            after.drainSequence == l.drainSequence)
  {
  }

  /** Each output sees every drain number at most once and in order. */
  lemma {:induction false} DrainNumbersIncrease(l: Ledger, run: seq<Call>, output: Output)
    requires l.drainSequence + Records(run) < UINT64_MAX
    requires StrictlyIncreasing(Drains(l, output)) && AtMost(Drains(l, output), l.drainSequence)
    ensures var after := AfterRun(l, run);
      && after.drainSequence <= l.drainSequence + Records(run)
      && StrictlyIncreasing(Drains(after, output)) && AtMost(Drains(after, output), after.drainSequence)
  {
    if run != [] {
      var front, last := run[..|run| - 1], run[|run| - 1];
      var before := AfterRun(l, front);
      DrainNumbersIncrease(l, front, output);
      CallNumbers(before, last, output);
      IncreasingAppend(Drains(before, output), before.drainSequence, AfterCall(before, last).drainSequence);
    }
  }

  lemma IncreasingAppend(drains: seq<uint64>, bound: nat, drain: uint64)
    requires StrictlyIncreasing(drains) && AtMost(drains, bound) && bound <= drain
    ensures AtMost(drains, drain)
    ensures bound < drain ==> StrictlyIncreasing(drains + [drain]) && AtMost(drains + [drain], drain)
  {
  }

  // ---------- Gaps in the drain numbers ----------

  /** Numbers 1, 2, .., n. */
  ghost predicate CountsFromOne(drains: seq<uint64>) {
    forall i | 0 <= i < |drains| :: drains[i] == i + 1
  }

  lemma CountsFromOneAppend(drains: seq<uint64>, drain: uint64)
    ensures CountsFromOne(drains + [drain]) <==> CountsFromOne(drains) && drain == |drains| + 1
  {
    assert (drains + [drain])[|drains|] == drain;
    assert forall i | 0 <= i < |drains| :: (drains + [drain])[i] == drains[i];
  }

  /** The run's call `i` wastes a drain number. */
  predicate WastesAt(l: Ledger, run: seq<Call>, i: nat) {
    i < |run| && Wastes(AfterRun(l, run[..i]), run[i])
  }

  /** The run's call `i` puts a line on the output. */
  predicate WritesAt(l: Ledger, run: seq<Call>, i: nat, output: Output) {
    i < |run| && Writes(AfterRun(l, run[..i]), run[i], output)
  }

  lemma EarlierCallsStay(l: Ledger, run: seq<Call>, i: nat, output: Output)
    requires i < |run| - 1
    ensures var front := run[..|run| - 1];
      && (WastesAt(l, run, i) <==> WastesAt(l, front, i))
      && (WritesAt(l, run, i, output) <==> WritesAt(l, front, i, output))
  {
    assert run[..|run| - 1][..i] == run[..i];
  }

  /** How many drain numbers a run wasted. */
  function Wasted(l: Ledger, run: seq<Call>): nat {
    if run == [] then 0
    else Wasted(l, run[..|run| - 1]) + (if WastesAt(l, run, |run| - 1) then 1 else 0)
  }

  lemma {:induction false} WastedIff(l: Ledger, run: seq<Call>)
    ensures Wasted(l, run) > 0 <==> exists i: nat :: WastesAt(l, run, i)
  {
    if run != [] {
      var front := run[..|run| - 1];
      WastedIff(l, front);
      forall i: nat | i < |front|
        ensures WastesAt(l, run, i) <==> WastesAt(l, front, i)
      {
        EarlierCallsStay(l, run, i, File);
      }
    }
  }

  /** Some record's number was wasted before a line reached the output. */
  ghost predicate WastedBeforeWrite(l: Ledger, run: seq<Call>, output: Output) {
    exists i: nat, j: nat | i < j :: WastesAt(l, run, i) && WritesAt(l, run, j, output)
  }

  /** The last call adds to that exactly when it writes and a number was wasted before. */
  lemma WastedBeforeWriteSplits(l: Ledger, run: seq<Call>, output: Output)
    requires run != []
    ensures var front := run[..|run| - 1];
      WastedBeforeWrite(l, run, output)
      <==> WastedBeforeWrite(l, front, output) || (Wasted(l, front) > 0 && WritesAt(l, run, |run| - 1, output))
  {
    var n, front := |run| - 1, run[..|run| - 1];
    WastedIff(l, front);
    forall i: nat | i < n
      ensures WastesAt(l, run, i) <==> WastesAt(l, front, i)
      ensures WritesAt(l, run, i, output) <==> WritesAt(l, front, i, output)
    {
      EarlierCallsStay(l, run, i, output);
    }
  }

  lemma {:induction false} DrainNumbersSplit(hasFile: bool, hasConsole: bool, run: seq<Call>, output: Output)
    requires Records(run) < UINT64_MAX
    ensures var initial := InitialLedger(hasFile, hasConsole); var l := AfterRun(initial, run);
      && l.drainSequence <= Records(run)
      && (!HasFailed(l, output) ==> l.drainSequence == |Drains(l, output)| + Wasted(initial, run))
      && (CountsFromOne(Drains(l, output)) <==> !WastedBeforeWrite(initial, run, output))
  {
    if run != [] {
      var initial, front, last := InitialLedger(hasFile, hasConsole), run[..|run| - 1], run[|run| - 1];
      var before := AfterRun(initial, front);
      DrainNumbersSplit(hasFile, hasConsole, front, output);
      WastedBeforeWriteSplits(initial, run, output);
      CallNumbers(before, last, output);
      CountsFromOneAppend(Drains(before, output), AfterCall(before, last).drainSequence);
    }
  }

  /**
   The numbers an output is given run 1, 2, 3 without a gap exactly when no record whose formatter threw, while an
   output was still live, came before a line written to that output.
   */
  lemma DrainNumbersHaveNoGapIff(hasFile: bool, hasConsole: bool, run: seq<Call>, output: Output)
    requires Records(run) < UINT64_MAX
    ensures var initial := InitialLedger(hasFile, hasConsole);
      CountsFromOne(Drains(AfterRun(initial, run), output)) <==> !WastedBeforeWrite(initial, run, output)
  {
    DrainNumbersSplit(hasFile, hasConsole, run, output);
  }

  /** A first record whose formatter throws and a second that is written everywhere: each output starts at 2. */
  lemma ThrowingFormatterLeavesGap(output: Output)
    ensures var run := [ConsumeCall(Outcome(true, false, false, false)), ConsumeCall(Outcome(true, true, true, true))];
      Drains(AfterRun(InitialLedger(true, true), run), output) == [2]
  {
    var run := [ConsumeCall(Outcome(true, false, false, false)), ConsumeCall(Outcome(true, true, true, true))];
    assert run[..1] == [run[0]] && run[..1][..0] == [];
  }

  /** Formatting never throws on a decoded record. */
  ghost predicate FormattingIsTotal(run: seq<Call>) {
    forall i | 0 <= i < |run| :: run[i].ConsumeCall? && run[i].outcome.decoded ==> run[i].outcome.formatted
  }

  /** With total formatting each output's lines are numbered 1..n with no gap, up to its failure. */
  lemma DrainNumbersHaveNoGap(hasFile: bool, hasConsole: bool, run: seq<Call>, output: Output)
    requires Records(run) < UINT64_MAX && FormattingIsTotal(run)
    ensures var l := AfterRun(InitialLedger(hasFile, hasConsole), run);
      CountsFromOne(Drains(l, output)) && (!HasFailed(l, output) ==> |Drains(l, output)| == l.drainSequence)
  {
    DrainNumbersSplit(hasFile, hasConsole, run, output);
    WastedIff(InitialLedger(hasFile, hasConsole), run);
  }

  // ---------- What a run says about the outputs, call by call ----------

  /** The call fails on the output, if that is still in use. */
  predicate Breaks(call: Call, output: Output) {
    match call
    case FlushCall(fileFlushed, consoleFlushed) => if output.File? then !fileFlushed else !consoleFlushed
    case ConsumeCall(o) => o.decoded && o.formatted && !(if output.File? then o.fileWritten else o.consoleWritten)
  }

  /** The output is not there, or a call failed on it. */
  predicate IsBroken(present: bool, run: seq<Call>, output: Output) {
    !present || exists i | 0 <= i < |run| :: Breaks(run[i], output)
  }

  /** How many records arrived when both outputs were broken already. */
  function RefusedRecords(hasFile: bool, hasConsole: bool, run: seq<Call>): nat {
    if run == [] then 0
    else
      var front := run[..|run| - 1];
      var refused := run[|run| - 1].ConsumeCall? && IsBroken(hasFile, front, File) && IsBroken(hasConsole, front, Console);
      RefusedRecords(hasFile, hasConsole, front) + (if refused then 1 else 0)
  }

  /** How many lines an output took: records decoded, formatted and written before anything broke it. */
  function LinesTaken(present: bool, run: seq<Call>, output: Output): nat {
    if run == [] then 0
    else
      var front, last := run[..|run| - 1], run[|run| - 1];
      var taken := last.ConsumeCall? && last.outcome.decoded && last.outcome.formatted && !IsBroken(present, run, output);
      LinesTaken(present, front, output) + (if taken then 1 else 0)
  }

  lemma BrokenByLast(present: bool, run: seq<Call>, output: Output)
    requires run != []
    ensures IsBroken(present, run, output)
       <==> IsBroken(present, run[..|run| - 1], output) || Breaks(run[|run| - 1], output)
  {
    assert forall i | 0 <= i < |run| - 1 :: run[..|run| - 1][i] == run[i];
  }

  /**
   The ledger after a run, read off the calls themselves: an output has failed exactly when it is missing or a call
   failed on it, and each record was discarded exactly when both outputs were broken as it came.
   */
  lemma {:induction false} LedgerFollowsCalls(hasFile: bool, hasConsole: bool, run: seq<Call>)
    ensures var l := AfterRun(InitialLedger(hasFile, hasConsole), run);
      && (l.fileFailed <==> IsBroken(hasFile, run, File)) && (l.consoleFailed <==> IsBroken(hasConsole, run, Console))
      && l.discarded == Min(RefusedRecords(hasFile, hasConsole, run), UINT64_MAX)
      && RefusedRecords(hasFile, hasConsole, run) <= Records(run)
      && l.consumed == Min(Records(run) - RefusedRecords(hasFile, hasConsole, run), UINT64_MAX)
      && |l.fileDrains| == LinesTaken(hasFile, run, File) && |l.consoleDrains| == LinesTaken(hasConsole, run, Console)
  {
    if run != [] {
      LedgerFollowsCalls(hasFile, hasConsole, run[..|run| - 1]);
      BrokenByLast(hasFile, run, File);
      BrokenByLast(hasConsole, run, Console);
    }
  }

  // ---------- The outputs and the sink ----------

  class ConsoleOutput {
    var lines: seq<Line>

    constructor ()
      ensures lines == []
    {
      lines := [];
    }

    method Write(payload: Line, succeeds: bool) returns (ok: bool)
      modifies this
      ensures ok == succeeds
      ensures lines == if ok then old(lines) + [payload] else old(lines)
    {
      ok := succeeds;
      if ok {
        lines := lines + [payload];
      }
    }
  }

  class FanoutSink {
    var fileOutput: RotatingFileOutput?
    var consoleOutput: ConsoleOutput?
    var fileSinkFailed: bool
    var consoleSinkFailed: bool
    var consumed: uint64
    var discardedAfterSinkFailure: uint64
    var drainSequence: uint64
    ghost var fileDrains: seq<uint64>
    ghost var consoleDrains: seq<uint64>

    /** An output still in use is there, and a file still in use has its sink open. */
    ghost predicate Valid()
      reads this, fileOutput, consoleOutput
    {
      && (fileOutput == null ==> fileSinkFailed)
      && (consoleOutput == null ==> consoleSinkFailed)
      && (fileOutput != null ==> fileOutput.Valid())
      && (!fileSinkFailed && fileOutput != null ==> fileOutput.sinkOpen)
    }

    ghost function State(): Ledger
      reads this
    {
      Ledger(fileSinkFailed, consoleSinkFailed, consumed, discardedAfterSinkFailure, drainSequence, fileDrains,
                    consoleDrains)
    }

    constructor (fileOutput: RotatingFileOutput?, consoleOutput: ConsoleOutput?)
      requires fileOutput != null ==> fileOutput.Valid() && fileOutput.sinkOpen
      ensures Valid() && this.fileOutput == fileOutput && this.consoleOutput == consoleOutput
      ensures State() == InitialLedger(fileOutput != null, consoleOutput != null)
    {
      this.fileOutput, this.consoleOutput := fileOutput, consoleOutput;
      fileSinkFailed, consoleSinkFailed := fileOutput == null, consoleOutput == null;
      consumed, discardedAfterSinkFailure, drainSequence := 0, 0, 0;
      fileDrains, consoleDrains := [], [];
    }

    /** No call the file output makes for the line throws. */
    ghost predicate Sufficient(payload: Line, budget: nat)
      reads this
    {
      fileOutput != null ==>
        budget >= MostCalls(fileOutput.rotationFileCount) && |payload| + fileOutput.eolBytes <= UINT64_MAX
    }

    /** One record. Every path, throwing or not, moves the ledger by `AfterConsume`. */
    method Consume(parsed: Option<Document>, formatted: Option<(Line, Line)>, fileBudget: nat, consoleSucceeds: bool)
      returns (threw: bool, outcome: Outcome)
      requires Valid()
      modifies this, fileOutput, consoleOutput
      ensures Valid() && fileOutput == old(fileOutput) && consoleOutput == old(consoleOutput)
      ensures State() == AfterConsume(old(State()), outcome)
      ensures fileSinkFailed <==> old(fileSinkFailed) || (outcome.formatted && !outcome.fileWritten)
      ensures consoleSinkFailed <==> old(consoleSinkFailed) || (outcome.formatted && !outcome.consoleWritten)
      ensures old(fileSinkFailed && consoleSinkFailed) ==>
        consumed == old(consumed) && discardedAfterSinkFailure == Min(old(discardedAfterSinkFailure) + 1, UINT64_MAX)
      ensures !old(fileSinkFailed && consoleSinkFailed) ==>
        consumed == Min(old(consumed) + 1, UINT64_MAX) && discardedAfterSinkFailure == old(discardedAfterSinkFailure)
      ensures threw <==> !old(fileSinkFailed && consoleSinkFailed) && !(outcome.decoded && outcome.formatted)
      ensures outcome.decoded <==> !old(fileSinkFailed && consoleSinkFailed) && Decodable(parsed)
      ensures outcome.formatted <==> outcome.decoded && formatted.Some?
      ensures outcome.fileWritten ==> outcome.formatted && !old(fileSinkFailed)
      ensures outcome.formatted && !old(fileSinkFailed) && Sufficient(formatted.value.0, fileBudget) ==> outcome.fileWritten
      ensures fileOutput != null ==>
        fileOutput.history == old(fileOutput.history) + (if outcome.fileWritten then [formatted.value.0] else [])
      ensures outcome.consoleWritten <==> outcome.formatted && !old(consoleSinkFailed) && consoleSucceeds
      ensures consoleOutput != null ==>
        consoleOutput.lines == old(consoleOutput.lines) + (if outcome.consoleWritten then [formatted.value.1] else [])
    {
      outcome := Outcome(false, false, false, false);
      if fileSinkFailed && consoleSinkFailed {
        discardedAfterSinkFailure := Increment(discardedAfterSinkFailure);
        return false, outcome;
      }
      var envelope := TryDecode(parsed);
      if envelope.None? {
        consumed := Increment(consumed);
        return true, outcome;
      }
      NextDrainSequence();
      if formatted.None? {
        consumed := Increment(consumed);
        return true, outcome.(decoded := true);
      }
      var fileWritten, consoleWritten :=
        WriteWhereHealthy(formatted.value.0, formatted.value.1, fileBudget, consoleSucceeds);
      consumed := Increment(consumed);
      return false, Outcome(true, true, fileWritten, consoleWritten);
    }

    method NextDrainSequence()
      modifies this`drainSequence
      ensures drainSequence == Increment(old(drainSequence))
    {
      if drainSequence != UINT64_MAX {
        drainSequence := drainSequence + 1;
      }
    }

    /** One record's two lines, each to its output if that is healthy. */
    method WriteWhereHealthy(fileLine: Line, consoleLine: Line, fileBudget: nat, consoleSucceeds: bool)
      returns (fileWritten: bool, consoleWritten: bool)
      requires Valid()
      modifies this`fileSinkFailed, this`fileDrains, this`consoleSinkFailed, this`consoleDrains, fileOutput, consoleOutput
      ensures Valid()
      ensures State() == AfterConsole(AfterFile(old(State()), fileWritten), consoleWritten)
      ensures fileWritten ==> !old(fileSinkFailed)
      ensures !old(fileSinkFailed) && Sufficient(fileLine, fileBudget) ==> fileWritten
      ensures fileOutput != null ==>
        fileOutput.history == old(fileOutput.history) + (if fileWritten then [fileLine] else [])
      ensures consoleWritten <==> !old(consoleSinkFailed) && consoleSucceeds
      ensures consoleOutput != null ==>
        consoleOutput.lines == old(consoleOutput.lines) + (if consoleWritten then [consoleLine] else [])
    {
      fileWritten := WriteFileIfHealthy(fileLine, fileBudget);
      consoleWritten := WriteConsoleIfHealthy(consoleLine, consoleSucceeds);
    }

    /** The only place that writes the file: a null sink is never reached, because its failure was latched. */
    method WriteFileIfHealthy(payload: Line, budget: nat) returns (written: bool)
      requires Valid()
      modifies this`fileSinkFailed, this`fileDrains, fileOutput
      ensures Valid()
      ensures State() == AfterFile(old(State()), written)
      ensures written ==> fileOutput != null && !old(fileSinkFailed)
      ensures !old(fileSinkFailed) && Sufficient(payload, budget) ==> written
      ensures fileOutput != null ==>
        fileOutput.history == old(fileOutput.history) + (if written then [payload] else [])
    {
      if fileOutput == null || fileSinkFailed {
        return false;
      }
      written := fileOutput.Write(payload, budget);
      if written {
        fileDrains := fileDrains + [drainSequence];
      } else {
        fileSinkFailed := true;
      }
    }

    method WriteConsoleIfHealthy(payload: Line, succeeds: bool) returns (written: bool)
      requires Valid()
      modifies this`consoleSinkFailed, this`consoleDrains, consoleOutput
      ensures Valid()
      ensures State() == AfterConsole(old(State()), written)
      ensures written <==> !old(consoleSinkFailed) && succeeds
      ensures consoleOutput != null ==>
        consoleOutput.lines == old(consoleOutput.lines) + (if written then [payload] else [])
    {
      if consoleOutput == null || consoleSinkFailed {
        return false;
      }
      written := consoleOutput.Write(payload, succeeds);
      if written {
        consoleDrains := consoleDrains + [drainSequence];
      } else {
        consoleSinkFailed := true;
      }
    }

    /** Flushes what is healthy; an output whose flush throws is abandoned. */
    method Flush(fileBudget: nat, consoleSucceeds: bool)
      requires Valid()
      modifies this`fileSinkFailed, this`consoleSinkFailed
      ensures Valid()
      ensures State() == AfterFlush(old(State()), fileBudget > 0, consoleSucceeds)
      ensures fileSinkFailed <==> old(fileSinkFailed) || fileBudget == 0
      ensures consoleSinkFailed <==> old(consoleSinkFailed) || !consoleSucceeds
    {
      if fileOutput != null && !fileSinkFailed {
        var ok := fileOutput.Flush(fileBudget);
        if !ok {
          fileSinkFailed := true;
        }
      }
      if consoleOutput != null && !consoleSinkFailed && !consoleSucceeds {
        consoleSinkFailed := true;
      }
    }
  }
}
