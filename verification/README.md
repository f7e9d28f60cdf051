# Verified model of the PrivateServer logger and benchmark

This project models, in Dafny 4.11, the parts of the PrivateServer repository where correctness is hardest to see from
one function at a time, and proves what those parts promise.

- **Asynchronous logger** (`LoggerMachine`, `LoggerInvariant`, `LoggerTheorems`, `LoggerLiveness`, `LoggerSnapshots`,
  `LoggerReports`, `LoggerExamples`).
  Any number of producers, the holder of the lifecycle mutex and the queue's worker interleave arbitrarily, one access
  to shared state per step. Steps are sequentially consistent: the acquire and release orderings alone do not order
  Shutdown's store of `accepting_` (ApplicationLogger.cpp:261) before its load of `activeProducers_` (:262), so nothing
  here says that they suffice. The queue library is taken as a bounded FIFO with a discard counter whose destructor
  drains it, and whose `log` call may lose a record by swallowing an exception while it copies the message.
- **Outputs** (`FanoutSink`, `RotatingFile`). The latching fan-out and the rotating file below the queue. A directory is
  a map from slot to lines; every file-system call may throw, and the number of calls that succeed first is an input.
- **Records and texts** (`Utf8`, `UtcTimestamp`, `LogEnvelope`, `Decimals`). The recogniser against RFC 3629, truncation,
  canonical timestamps and run identifiers, and the envelope's way from producer to consumer over an abstract JSON
  document. The context property the source calls `result` keeps that name.
- **Command line and pipes** (`Quoting`, `CommandLine`, `OptionRules`, `ChildLaunch`, `LinePipe`). Windows argument
  quoting against the argv rules of the Microsoft C runtime, the option parser, and newline framing over arbitrarily split reads.
- **Fixed-rate load and echo** (`BenchmarkProtocol`, `LoadSchedule`, `LoadReadings`, `LoadWorker`, `LoadRun`,
  `EchoServer`, `ClosedLoop`, `Sums`). The codec, the scheduler with its missed-slot accounting, the echo worker, and
  all of them together over a network that delivers at most once in any order. Clock readings never go back and repeat finitely
  often; whether a send is taken and what an event queue holds is arbitrary.
- **World benchmark** (`Statistics`, `PhaseGate`, `WorldClient`, `ControlFleet`, `Xorshift`, `DiceRolls`). Nearest-rank
  percentiles, the phase gates with ratios as exact rationals, the clients and their control bots.

`Prelude` holds the small types every module shares. A method that changes state is proved against a specification
function or states its whole new state. Beside the main specification functions stand theorems that say what they mean
without them, by looking back over the calls, events, reads, samples, passes or requests themselves
(`LedgerFollowsCalls`, `RunAnswersRequests`, `DrainIff`, `SummaryTells`, `ActsOncePerInterval`, `SamplesAreDifferences`).

## What the code does not do

Where a natural expectation is false of the code, the model keeps the code and states exactly when the expectation holds.

- A record lost inside the queue library is reported as enqueued. `EnqueuedIsConsumedIffNothingLost` gives the exact
  condition, `LostRecordCountsAsEnqueued` a run. spdlog swallows the exception
  (src/vendor/spdlog/include/spdlog/async_logger-inl.h:34-43).
- A health snapshot taken while the logger is started can be torn (`SnapshotCanBeTorn`). Every snapshot begun in a state
  adds up exactly when the logger is not started there (`EverySnapshotReconcilesIff`); one during which no producer moves
  adds up exactly when all that was counted had been published (`QuietSnapshotReconcilesIff`), so keeping callers out of
  Log is enough (`SnapshotWithoutProducersReconciles`).
- A formatter that throws leaves a gap in an output's drain numbers exactly when a line is written to that output later
  (`DrainNumbersHaveNoGapIff`, with a run in `ThrowingFormatterLeavesGap`).
- An empty line ends the reader's stream (`LinesComeThroughIffNoneEmpty`); the program's own lines are JSON objects and
  never empty.
- A run id or configuration path that starts with `--` passes the parent's checks and is refused by the child; so is a
  run id with a NUL, while a NUL shortens a configuration path (`LaunchRoundTrip`).
- The count of missed slots can include slots past the end of the measurement, because the loop reads the clock twice,
  and leaves out slots that come due while the worker is away at the end. `AccountedIff` gives the exact condition on the
  clock, `LateLookCountsTooMany` and `AwayAtTheEndCountsTooFew` a run of each kind.
- At the canonical 60 Hz the p99 gate never decides a verdict (`Verdict`, `OverrunGateImpliesP99Gate`).
- A rebind to another entity of the same generation restarts the numbers but does not make the bot resend its control
  state. `RebindIsAnnouncedIff` gives the exact condition at each boost percentage: only 0 and 100 can force a resend.
  `RebindMayGoUnnoticed` shows a silent rebind in every other case.

## Model

| member | source | states |
|---|---|---|
| `LoggerInvariant.RunKeeps` | src/PrivateServer.ApplicationLogging/ApplicationLogger.cpp:147-352 | Every state of every interleaving of any number of producers, the lifecycle mutex's holder and the queue's worker satisfies the whole invariant: counters, observer, lifetimes, queue and worker |
| `LoggerInvariant.StepKeeps` | src/PrivateServer.ApplicationLogging/ApplicationLogger.cpp:147-352 | Each single atomic access, by whichever thread, keeps that invariant |
| `LoggerTheorems.NoUseAfterReset` | src/PrivateServer.ApplicationLogging/ApplicationLogger.cpp:253-297 | No producer is about to use the logger, its thread pool or sink once Shutdown has reset them |
| `LoggerInvariant.ShutdownObserves` | src/PrivateServer.ApplicationLogging/ApplicationLogger.cpp:281-284 | The observation inside Shutdown is never skipped, and its guard always passes |
| `LoggerInvariant.QuietIsSettled` | src/PrivateServer.ApplicationLogging/ApplicationLogger.cpp:261-265 | When the spin loop has ended nobody is inside Log, nobody holds the observer flag, and every attempt and discard has been published |
| `LoggerTheorems.CountersNeverOverstate` | src/PrivateServer.ApplicationLogging/ApplicationLogger.cpp:327-352 | At every moment enqueued, dropped and their sum with filtered stay within what really happened, and the recorded depth within the queue's capacity |
| `LoggerTheorems.ReconciledAtRest` | src/PrivateServer.ApplicationLogging/ApplicationLogger.cpp:253-297 | After Shutdown attempted = filtered + enqueued + dropped when nothing saturated, dropped is the number of full-queue refusals, and enqueued is what the queue took or silently lost |
| `LoggerTheorems.EveryAcceptedRecordHandled` | src/PrivateServer.ApplicationLogging/ApplicationLogger.cpp:281-291 | After Shutdown the worker has handled every record the queue took, in that order, and counted each once as consumed or discarded |
| `LoggerTheorems.EnqueuedIsConsumedIffNothingLost` | src/PrivateServer.ApplicationLogging/ApplicationLogger.cpp:217-220 | After Shutdown enqueued = consumed + discarded-after-failure exactly when the queue library swallowed no exception while copying a message |
| `LoggerTheorems.StoppedIsFinal` | src/PrivateServer.ApplicationLogging/ApplicationLogger.cpp:253-259 | Once stopped, no step of any thread changes a counter |
| `LoggerTheorems.SnapshotAfterShutdownReconciles` | src/PrivateServer.ApplicationLogging/ApplicationLogger.cpp:230-251 | A snapshot after Shutdown reports each true number (attempted, filtered, refused, taken or lost, consumed, discarded), and they add up: attempted = filtered + enqueued + dropped, enqueued = consumed + discarded + lost |
| `LoggerTheorems.LifecycleMovesOnlyHere` | src/PrivateServer.ApplicationLogging/ApplicationLogger.cpp:147-187 | The one step that starts the logger, those that stop it (a Start that throws, the end of Shutdown), and those that open and close admission; nothing else moves the lifecycle, and it never goes back |
| `LoggerTheorems.QueueTakesIffRoom` | src/PrivateServer.ApplicationLogging/ApplicationLogger.cpp:217-220 | A record goes behind what the queue holds exactly while there is room and its copy is not lost, and is refused exactly when the queue is full |
| `LoggerReports.ReportIsTrue` | src/PrivateServer.ApplicationLogging/ApplicationLogger.cpp:230-251 | Whenever a capture ends, in any lifecycle state: consumed and discarded are what the worker has consumed and discarded by then (saturated), an output is reported failed exactly when it is missing or a call failed on it, and the queue's depth and maximum are those of the moment |
| `LoggerReports.FlushedBehindLastRecord` | src/PrivateServer.ApplicationLogging/ApplicationLogger.cpp:269-290 | When Shutdown of a started logger has returned, the last call the outputs got was a flush, behind every record the queue took, whether the flush could be posted or not |
| `LoggerReports.MaximumDepthIsPeak` | src/PrivateServer.ApplicationLogging/ApplicationLogger.cpp:317-325 | Over any run the maximum depth is the largest queue length any producer asked for, up to answers not stored yet |
| `LoggerReports.EverySnapshotIsWithinRun` | src/PrivateServer.ApplicationLogging/ApplicationLogger.cpp:230-251 | Whatever other threads do during a snapshot, each number it reports lies between its value as the snapshot began and its value as it ended |
| `LoggerReports.CountersOnlyGrow` | src/PrivateServer.ApplicationLogging/ApplicationLogger.cpp:94-112 | No step of any thread lowers a published counter |
| `LoggerSnapshots.EverySnapshotReconcilesIff` | src/PrivateServer.ApplicationLogging/ApplicationLogger.cpp:230-251 | From any reachable unsaturated state with a producer and the mutex free, every snapshot begun there adds up (attempted = filtered + enqueued + dropped) in every continuation exactly when the logger is not started; a snapshot can always finish |
| `LoggerSnapshots.QuietSnapshotReconcilesIff` | src/PrivateServer.ApplicationLogging/ApplicationLogger.cpp:230-251 | A snapshot during which no producer takes a step adds up exactly when, as it began, no record was between being counted and being published and any other observer had credited all that is published |
| `LoggerSnapshots.QuietSnapshotIsTrue` | src/PrivateServer.ApplicationLogging/ApplicationLogger.cpp:230-251 | And then each of its numbers is the true one: attempted, filtered, refused by a full queue, taken or lost |
| `LoggerSnapshots.SnapshotWithoutProducersReconciles` | src/PrivateServer.ApplicationLogging/ApplicationLogger.cpp:230-251 | Keeping every producer out of Log while it runs is enough for a snapshot to add up, started or not |
| `LoggerLiveness.EveryStepCountsDown` | src/PrivateServer.ApplicationLogging/ApplicationLogger.cpp:261-265 | While Shutdown closes, every step that changes anything lowers a measure, whichever thread takes it |
| `LoggerLiveness.ShutdownNeverStuck` | src/PrivateServer.ApplicationLogging/ApplicationLogger.cpp:253-297 | Until Shutdown has returned some thread can take a step that lowers the measure and needs no failure |
| `LoggerLiveness.ClosingRunIsBounded` | src/PrivateServer.ApplicationLogging/ApplicationLogger.cpp:261-297 | Shutdown returns within a number of steps fixed when admission closes, in every schedule that keeps moving |
| `LoggerExamples.LostRecordCountsAsEnqueued` | src/PrivateServer.ApplicationLogging/ApplicationLogger.cpp:218-220 | A reachable state reports one record enqueued although the queue never saw it |
| `LoggerExamples.SnapshotCanBeTorn` | src/PrivateServer.ApplicationLogging/ApplicationLogger.cpp:230-251 | A health snapshot taken while a producer runs can report more records enqueued than attempted |
| `FanoutSink.FanoutSink.Consume` | src/PrivateServer.ApplicationLogging/ApplicationLogFanoutSink.cpp:36-69 | Every path, throwing or not: one counter rises by one, discarded exactly when both outputs had failed; a payload counts as decoded exactly when it describes an acceptable envelope; each output receives its formatted line exactly when it is healthy and its calls succeed, and fails exactly when they do not |
| `FanoutSink.EveryRecordCountedOnce` | src/PrivateServer.ApplicationLogging/ApplicationLogFanoutSink.cpp:36-75 | Over any run of records and flushes consumed + discarded equals the number of records, whatever fails |
| `FanoutSink.LedgerFollowsCalls` | src/PrivateServer.ApplicationLogging/ApplicationLogFanoutSink.cpp:36-130 | Over any run of records and flushes, read off the calls: an output has failed exactly when it is missing or a call failed on it, a record was discarded exactly when both were broken as it came and consumed otherwise, and each output took the lines written before anything broke it |
| `FanoutSink.DrainNumbersHaveNoGapIff` | src/PrivateServer.ApplicationLogging/ApplicationLogFanoutSink.cpp:54-66 | For each output, over any run of records and flushes: its lines are numbered 1, 2, 3 without a gap exactly when no record whose formatter threw while an output was live came before a line written to it |
| `FanoutSink.DrainNumbersHaveNoGap` | src/PrivateServer.ApplicationLogging/ApplicationLogFanoutSink.cpp:54-60 | So with total formatting each output's lines carry the numbers 1..n, and while it is live n is the last number drawn |
| `FanoutSink.DrainNumbersIncrease` | src/PrivateServer.ApplicationLogging/ApplicationLogFanoutSink.cpp:132-140 | Even with failing formatters, and flushes in between, each output sees strictly increasing drain numbers |
| `FanoutSink.FailureIsLatched` | src/PrivateServer.ApplicationLogging/ApplicationLogFanoutSink.cpp:71-130 | A failed output stays failed and receives nothing more in any run of records and flushes |
| `FanoutSink.FanoutSink.WriteFileIfHealthy` | src/PrivateServer.ApplicationLogging/ApplicationLogFanoutSink.cpp:96-112 | A healthy file output has its sink open, so a write is never issued to a file whose rotation failed |
| `FanoutSink.FanoutSink.Flush` | src/PrivateServer.ApplicationLogging/ApplicationLogFanoutSink.cpp:71-75 | Only healthy outputs are flushed; the one whose flush throws is abandoned, and not the other |
| `RotatingFile.RotatingFileOutput.Write` | src/PrivateServer.ApplicationLogging/ApplicationLogOutputFactory.cpp:74-92 | A line is appended, after a rotation exactly when it would overfill the active file, and always when no call throws; whatever call throws, the directory still holds the newest lines in order; a tidy directory stays tidy |
| `RotatingFile.RotatingFileOutput.RotateOnce` | src/PrivateServer.ApplicationLogging/ApplicationLogOutputFactory.cpp:113-144 | The files shift by one slot, or, when a call throws half-way, their lines are still a suffix of all lines ever written |
| `RotatingFile.RotatingFileOutput.constructor` | src/PrivateServer.ApplicationLogging/ApplicationLogOutputFactory.cpp:60-72 | From an empty directory the output starts tidy: backups are exactly 1..m with m at most the configured count, and every segment fits or is one line |
| `RotatingFile.RotationDropsOldest` | src/PrivateServer.ApplicationLogging/ApplicationLogOutputFactory.cpp:119-140 | A rotation loses exactly the oldest segment: what was there is the dropped lines followed by the new stream |
| `RotatingFile.RenameKeepsStream` | src/PrivateServer.ApplicationLogging/ApplicationLogOutputFactory.cpp:139 | Renaming a file into the free slot after it moves no line past another |
| `RotatingFile.TidyAfterRotation` | src/PrivateServer.ApplicationLogging/ApplicationLogOutputFactory.cpp:113-144 | A completed rotation keeps the directory tidy: one more backup up to the limit, segments in size, and the whole stream while no more rotations than backups have happened |
| `Utf8.IsValidUtf8` | src/PrivateServer.ApplicationLogging/ApplicationLogValidation.h:48-131 | Accepts exactly the concatenated encodings of sequences of Unicode scalar values (sections 3 and 4 of RFC 3629) |
| `Utf8.EncodingIsInjective` | src/PrivateServer.ApplicationLogging/ApplicationLogValidation.h:48-131 | The sequence of scalar values behind a text is unique |
| `Utf8.LeadingOfEncoded` | src/PrivateServer.ApplicationLogging/ApplicationLogValidation.h:48-131 | The character grammar recognises every encoded scalar value whole and decodes it back, whatever follows |
| `Utf8.EncodedOfLeading` | src/PrivateServer.ApplicationLogging/ApplicationLogValidation.h:48-131 | Whatever the grammar recognises is the encoding of one scalar value, never a surrogate, an overlong form or a value past U+10FFFF |
| `Utf8.WellFormedPrefixes` | src/PrivateServer.ApplicationLogging/ApplicationLogValidation.h:30-46 | In well-formed text the well-formed prefixes are exactly those that end before a byte that is not a continuation |
| `Utf8.Utf8PrefixSizeWithinLimit` | src/PrivateServer.ApplicationLogging/ApplicationLogValidation.h:30-46 | The cut gives the longest well-formed prefix within the limit, at most three bytes short of it |
| `Utf8.ContinuationMask` | src/PrivateServer.ApplicationLogging/ApplicationLogValidation.h:25-28 | The mask test for continuation bytes is the range the model uses |
| `UtcTimestamp.MatchesCanonicalUtcTimestamp` | src/PrivateServer.ApplicationLogging/ApplicationLogValidation.h:179-203 | Accepts exactly the texts printed from a valid calendar moment |
| `UtcTimestamp.ReadOfPrinted` | src/PrivateServer.ApplicationLogging/ApplicationLogValidation.h:179-203 | A valid moment is recovered from its text, so the text determines it |
| `UtcTimestamp.YearsHaveTheirDays` | src/PrivateServer.ApplicationLogging/ApplicationLogValidation.h:163-177 | The month table with its leap rule gives every year the length of the Gregorian calendar |
| `UtcTimestamp.MatchesCanonicalRunId` | src/PrivateServer.ApplicationLogging/ApplicationLogValidation.h:210-238 | Accepts exactly run- followed by a canonical timestamp, a hyphen and a UUID |
| `LogEnvelope.IsStableToken` | src/PrivateServer.ApplicationLogging/ApplicationLogValidation.h:240-268 | Accepts exactly lower-case words and digits joined by single underscores that start with a letter |
| `LogEnvelope.TryCreate` | src/PrivateServer.ApplicationLogging/ApplicationLogEnvelope.cpp:12-36 | Succeeds exactly on valid records; the envelope holds the record with its message cut to the longest valid prefix within 1024 bytes |
| `LogEnvelope.Encode` | src/PrivateServer.ApplicationLogging/ApplicationLogPayloadCodec.cpp:48-76 | The document describes the envelope with its timestamp cut to milliseconds toward zero; a valid record never stops the printer |
| `LogEnvelope.TryDecode` | src/PrivateServer.ApplicationLogging/ApplicationLogPayloadCodec.cpp:78-139 | Accepts exactly the documents that describe an acceptable envelope, and returns that envelope |
| `LogEnvelope.DescribedEnvelopeIsUnique` | src/PrivateServer.ApplicationLogging/ApplicationLogPayloadCodec.cpp:88-122 | A document describes at most one envelope |
| `LogEnvelope.ProducedIsAcceptable` | src/PrivateServer.ApplicationLogging/ApplicationLogPayloadCodec.cpp:124-130 | Everything the producer creates satisfies the consumer, after the timestamp lost precision, and a cut message keeps at least 1021 bytes |
| `LogEnvelope.Deliver` | src/PrivateServer.ApplicationLogging/ApplicationLogPayloadCodec.cpp:48-139 | Creation, encoding and decoding in a row: a record arrives exactly when it is valid, with the same fields, its message whole up to 1024 bytes and else cut to a prefix of at least 1021, and its time cut to whole milliseconds toward zero |
| `LogEnvelope.DecodedIsStable` | src/PrivateServer.ApplicationLogging/ApplicationLogPayloadCodec.cpp:96-98 | A decoded timestamp is whole milliseconds already, so a second round trip changes nothing |
| `LinePipe.LineReader.ReadLine` | src/PrivateServer.NetworkRuntime.Benchmark/BenchmarkIpcPipe.cpp:108-170 | The answer depends only on the byte stream, not on how reads split it; nothing is lost; at most 64 KiB + 4096 bytes are ever pending; an over-long line fails under every split |
| `LinePipe.NextLineIff` | src/PrivateServer.NetworkRuntime.Benchmark/BenchmarkIpcPipe.cpp:108-170 | What that answer is: the text before the first newline if at most 64 KiB, too long if 64 KiB + 1 bytes come without one, and else a failed read, the end of an empty rest, or an incomplete line |
| `LinePipe.FramedLinesAreRead` | src/PrivateServer.NetworkRuntime.Benchmark/BenchmarkIpcPipe.cpp:108-199 | Lines that may be written are read back exactly, in order, and then the stream ends |
| `LinePipe.CleanStreamsAreFramed` | src/PrivateServer.NetworkRuntime.Benchmark/BenchmarkIpcPipe.cpp:108-170 | Every stream read to a clean end is the framing of the lines read, and each of them could have been written |
| `LinePipe.LinesComeThroughIffNoneEmpty` | src/PrivateServer.NetworkRuntime.Benchmark/BenchmarkIpcPipe.cpp:41-56 | Over any pipe that splits and merges writes, all lines come through exactly when none is empty: an empty line is a write of no bytes, which the reader takes for the end |
| `LinePipe.LineWriter.WriteLine` | src/PrivateServer.NetworkRuntime.Benchmark/BenchmarkIpcPipe.cpp:177-199 | Refuses exactly lines over 64 KiB or with a newline, without writing; otherwise sends the line and then its newline |
| `Quoting.AppendQuotedArgument` | src/PrivateServer.NetworkRuntime.Benchmark/BenchmarkServerChildProcess.cpp:218-253 | The loop writes the quoted form of the argument behind what is there |
| `Quoting.EscapedIsReadBack` | src/PrivateServer.NetworkRuntime.Benchmark/BenchmarkServerChildProcess.cpp:218-253 | The runtime's argv rules read the inside of the quotes back for any run of backslashes already counted, before quotes and at the end |
| `Quoting.RenderedIsSplit` | src/PrivateServer.NetworkRuntime.Benchmark/BenchmarkServerChildProcess.cpp:218-253 | Rendering and then splitting gives every list of arguments back, quoted or plain, up to the first NUL in them, where a command line ends |
| `Quoting.CommandLineIsSplit` | src/PrivateServer.NetworkRuntime.Benchmark/BenchmarkServerChildProcess.cpp:285-286 | With a quoted program path in front the arguments come back exactly when none holds a NUL, and the path does exactly when it does not end in a backslash |
| `CommandLine.Parse` | src/PrivateServer.NetworkRuntime.Benchmark/BenchmarkCommandLine.cpp:62-197 | Returns exactly what the specification says for every argument vector, with null entries and every error included |
| `CommandLine.AcceptsExactlyWhatIsSaid` | src/PrivateServer.NetworkRuntime.Benchmark/BenchmarkCommandLine.cpp:62-197 | Accepted vectors are exactly those that spell out a mode and valid settings in some order, no flag twice, allowed for that mode; the options are those settings |
| `CommandLine.SpelledIsReadIffValid` | src/PrivateServer.NetworkRuntime.Benchmark/BenchmarkCommandLine.cpp:103-173 | A spelling of settings is accepted exactly when each is valid and no flag repeats |
| `CommandLine.SettingsErrorIsTrue` | src/PrivateServer.NetworkRuntime.Benchmark/BenchmarkCommandLine.cpp:103-173 | Every refusal of the settings names a reason that can be found in the arguments: the null entry, the unknown text, the repeated flag, the missing or unfit value, the long run id |
| `OptionRules.OptionsAreSensibleIff` | src/PrivateServer.NetworkRuntime.Benchmark/BenchmarkCommandLine.cpp:62-197 | Some command line asks for given options exactly when a child has a run id of 1 to 128 bytes and both handles, any other mode has none of these, the world host has a configuration, and no text starts with two dashes |
| `OptionRules.SettingArrives` | src/PrivateServer.NetworkRuntime.Benchmark/BenchmarkCommandLine.cpp:103-173 | Each setting of an accepted command line reaches its own field, whatever comes before and after it |
| `OptionRules.ModeErrorIsTrue` | src/PrivateServer.NetworkRuntime.Benchmark/BenchmarkCommandLine.cpp:178-192 | A complaint about a mode's flags tells the truth: which word is missing from the arguments, or which is out of place |
| `OptionRules.ModeWords` | src/PrivateServer.NetworkRuntime.Benchmark/BenchmarkCommandLine.cpp:69-88 | The words that ask for the three modes a user gives, and for a configuration |
| `OptionRules.ChildWords` | src/PrivateServer.NetworkRuntime.Benchmark/BenchmarkCommandLine.cpp:69-173 | The words of a child's command line, for every run id and pair of handles |
| `Decimals.DecimalIsReadBack` | src/PrivateServer.NetworkRuntime.Benchmark/BenchmarkCommandLine.cpp:32-48 | A handle printed in decimal is read back |
| `ChildLaunch.BuildBenchmarkChildCommandLine` | src/PrivateServer.NetworkRuntime.Benchmark/BenchmarkServerChildProcess.cpp:278-299 | The appended text is the quoted path followed by the rendered tokens of the child's settings |
| `ChildLaunch.LaunchRoundTrip` | src/PrivateServer.NetworkRuntime.Benchmark/BenchmarkServerChildProcess.cpp:278-299 | For every launch the parent makes, the child parses exactly what was meant if and only if neither the run id nor the configuration path starts with two dashes or holds a NUL; otherwise it refuses, or takes a configuration path cut at its NUL |
| `BenchmarkProtocol.WriteUnsigned` | src/PrivateServer.NetworkRuntime.Benchmark/BenchmarkProtocol.h:96-121 | Writes the little-endian bytes of a number in place and touches nothing after them |
| `BenchmarkProtocol.ReadUnsigned` | src/PrivateServer.NetworkRuntime.Benchmark/BenchmarkProtocol.h:123-155 | Reads back the number in those bytes |
| `BenchmarkProtocol.EncodeCanonical` | src/PrivateServer.NetworkRuntime.Benchmark/BenchmarkProtocol.h:42-59 | The 64 bytes are the wire form of the payload |
| `BenchmarkProtocol.DecodeCanonical` | src/PrivateServer.NetworkRuntime.Benchmark/BenchmarkProtocol.h:61-73 | Returns the fields of the wire form |
| `BenchmarkProtocol.DecodeOfEncode` | src/PrivateServer.NetworkRuntime.Benchmark/BenchmarkProtocol.h:42-73 | Decoding what was encoded gives the payload back, for every payload |
| `BenchmarkProtocol.WireLayout` | src/PrivateServer.NetworkRuntime.Benchmark/BenchmarkProtocol.h:42-59 | Every field stands at its own offset, lowest byte first, and the padding counts 0 to 23 |
| `BenchmarkProtocol.EncodeOfDecode` | src/PrivateServer.NetworkRuntime.Benchmark/BenchmarkProtocol.h:42-85 | Encoding what was decoded gives the bytes back exactly when their padding is the deterministic one |
| `BenchmarkProtocol.HasDeterministicPadding` | src/PrivateServer.NetworkRuntime.Benchmark/BenchmarkProtocol.h:75-85 | Recognises exactly that padding |
| `EchoServer.EchoWorker.ProcessEvent` | src/PrivateServer.NetworkRuntime.Benchmark/BenchmarkServerEchoWorker.cpp:167-295 | Handles exactly the events the protocol allows; sessions are opened and closed accordingly, each request is answered once with the server's timestamps, the first failure is the one kept, and it tells the truth about its event |
| `EchoServer.RunAnswersRequests` | src/PrivateServer.NetworkRuntime.Benchmark/BenchmarkServerEchoWorker.cpp:130-295 | Over any run from a fresh worker, read off the events alone: it gets through exactly those that fit what came before, its sessions are those accepted and not closed since, and each request before the drain is answered once, in order, with its own fields and the two readings, on the channel its session was last accepted with |
| `EchoServer.RequestIff` | src/PrivateServer.NetworkRuntime.Benchmark/BenchmarkServerEchoWorker.cpp:253-269 | What it takes for a request is exactly what a client writes: version 2, echo, stamped, the server's times zero, the padding in place |
| `EchoServer.EchoWorker.ThreadMain` | src/PrivateServer.NetworkRuntime.Benchmark/BenchmarkServerEchoWorker.cpp:130-165 | Leaves at the first event it cannot handle, or when told to stop and the queue is empty; until then every event was handled, and its sessions and answers are those of the events popped, in order |
| `LoadWorker.LoadWorker.Run` | src/PrivateServer.NetworkRuntime.Benchmark/BenchmarkClientWorkload.cpp:249-392 | The worker terminates; on every outcome the grid was kept and accepted = completed + outstanding; next slot, filled slots and the reading each was filled at are what the clock readings made give; on success everything was answered, the three sample lists have exactly the measured requests, and the i-th of each belongs to the i-th of them answered; accepted plus missed are the slots of the plan exactly under the condition of AccountedIff |
| `LoadSchedule.SamplesAreDifferences` | src/PrivateServer.NetworkRuntime.Benchmark/BenchmarkClientWorkload.cpp:153-179 | The i-th round trip is the time from the stamp of the i-th measured request answered until its answer was seen, the i-th processing time the server's own between receiving and preparing, and the i-th lag the time from the request's slot until it was submitted |
| `LoadWorker.LoadWorker.SendUntilEnd` | src/PrivateServer.NetworkRuntime.Benchmark/BenchmarkClientWorkload.cpp:265-370 | The loop ends; the log of its clock readings, which never go back, leaves the schedule where it stands, a slot being filled only by a reading right after one at the head before the end; it stops only past the end of the measurement or of the slots |
| `LoadWorker.LoadWorker.FillSlotDue` | src/PrivateServer.NetworkRuntime.Benchmark/BenchmarkClientWorkload.cpp:274-351 | One look at the clock skips what is missed and fills the latest slot due |
| `LoadWorker.LoadWorker.SendNext` | src/PrivateServer.NetworkRuntime.Benchmark/BenchmarkClientWorkload.cpp:286-345 | Fills the next slot with a request that carries the identity and next number of the client whose turn it is, stamped and submitted at readings that follow each other |
| `LoadWorker.LoadWorker.Submit` | src/PrivateServer.NetworkRuntime.Benchmark/BenchmarkClientWorkload.cpp:292-324 | Sends the client's next request, stamped before and after; a refused send or an unreadable clock changes only its own count |
| `LoadWorker.LoadWorker.Transmit` | src/PrivateServer.NetworkRuntime.Benchmark/BenchmarkClientWorkload.cpp:301-319 | What goes on the wire is the canonical form of the request, and nothing does when the network client refuses |
| `LoadWorker.LoadWorker.ProbeClients` | src/PrivateServer.NetworkRuntime.Benchmark/BenchmarkClientWorkload.cpp:347-365 | At most four queues are looked at, one client after the other from where the last round stopped, and fewer only when the next slot is due |
| `LoadWorker.LoadWorker.DrainClients` | src/PrivateServer.NetworkRuntime.Benchmark/BenchmarkClientWorkload.cpp:374-382 | Every client's queue is seen empty |
| `LoadWorker.LoadWorker.Drain` | src/PrivateServer.NetworkRuntime.Benchmark/BenchmarkClientWorkload.cpp:372-391 | Ends with everything answered, or at the deadline with exactly the unanswered requests counted as timed out |
| `LoadWorker.LoadWorker.CompleteResponse` | src/PrivateServer.NetworkRuntime.Benchmark/BenchmarkClientWorkload.cpp:111-185 | Accepts a response exactly when it answers a request still waiting, and completes just that request; a measured one leaves the time since its stamp among the round trips, the server's prepared minus received time among the processing times, and how late it was submitted among the lags, and an answer with its four times |
| `LoadWorker.ResponseIff` | src/PrivateServer.NetworkRuntime.Benchmark/BenchmarkClientWorkload.cpp:128-139 | What it takes for a response is exactly an echo of a stamped request of the client with the server's two times set and in order |
| `LoadWorker.LoadWorker.DrainClientEvents` | src/PrivateServer.NetworkRuntime.Benchmark/BenchmarkClientWorkload.cpp:222-235 | Emptying a client's queue ends: every event handled completes a request |
| `LoadSchedule.SlotsFilledOnTime` | src/PrivateServer.NetworkRuntime.Benchmark/BenchmarkClientWorkload.cpp:265-345 | Every accepted request fills a slot of its own before the end of the measurement, never early and less than one interval late |
| `LoadSchedule.ClientsNumberTheirRequests` | src/PrivateServer.NetworkRuntime.Benchmark/BenchmarkClientWorkload.cpp:288-291 | Each client's requests are numbered 1, 2, 3 and so on |
| `LoadSchedule.SendKeepsSound` | src/PrivateServer.NetworkRuntime.Benchmark/BenchmarkClientWorkload.cpp:330-345 | Sending keeps the whole invariant, and the sequence number is always new: the duplicate branch is unreachable and numbers never wrap |
| `LoadSchedule.ResponseKeepsSound` | src/PrivateServer.NetworkRuntime.Benchmark/BenchmarkClientWorkload.cpp:143-184 | Completing a response keeps the whole invariant: one more completed and one fewer waiting, and every measured request that no longer waits has exactly one lag, one round trip and one processing time, none negative |
| `LoadSchedule.SkippingCatchesUp` | src/PrivateServer.NetworkRuntime.Benchmark/BenchmarkClientWorkload.cpp:276-284 | The one division passes over exactly the slots a whole interval late: it finds the slot that counting up one by one finds |
| `LoadSchedule.RemainderIsTurn` | src/PrivateServer.NetworkRuntime.Benchmark/BenchmarkClientWorkload.cpp:288-290 | The remainder of the slot number is the client whose turn it is in the round |
| `LoadReadings.AccountedIff` | src/PrivateServer.NetworkRuntime.Benchmark/BenchmarkClientWorkload.cpp:265-290 | With N slots in the plan and the grid's times continued, accepted plus missed is N exactly when the last clock reading acted on is at or past slot N - 1 and before slot N + 1, or there was none and N is 0; it exceeds N exactly when that reading is at or past slot N + 1 |
| `LoadReadings.LastLookReaches` | src/PrivateServer.NetworkRuntime.Benchmark/BenchmarkClientWorkload.cpp:265-290 | How far the schedule gets depends on the last reading acted on alone, however the earlier ones fell |
| `LoadReadings.LateLookCountsTooMany` | src/PrivateServer.NetworkRuntime.Benchmark/BenchmarkClientWorkload.cpp:265-284 | A run whose two readings straddle the end counts three slots of two |
| `LoadReadings.AwayAtTheEndCountsTooFew` | src/PrivateServer.NetworkRuntime.Benchmark/BenchmarkClientWorkload.cpp:265-284 | A run that is away from its first request until the end counts one slot of two |
| `LoadRun.RangesFollowEachOther` | src/PrivateServer.NetworkRuntime.Benchmark/BenchmarkClientWorkload.cpp:512-532 | Worker ranges follow each other and cover all clients in order |
| `LoadRun.RangesAreBalanced` | src/PrivateServer.NetworkRuntime.Benchmark/BenchmarkClientWorkload.cpp:512-532 | No worker is idle and sizes differ by at most one |
| `LoadRun.EveryClientHasOneWorker` | src/PrivateServer.NetworkRuntime.Benchmark/BenchmarkClientWorkload.cpp:512-532 | Every client belongs to exactly one worker |
| `LoadRun.PlansAreValid` | src/PrivateServer.NetworkRuntime.Benchmark/BenchmarkClientWorkload.cpp:254-260 | A rate Run supports gives every worker an interval of at least a nanosecond and a start within a second of the first |
| `LoadRun.PlansKeepTheRate` | src/PrivateServer.NetworkRuntime.Benchmark/BenchmarkClientWorkload.cpp:254-260 | A worker's interval is the greatest whole number of nanoseconds at which its own clients' requests of a second still fit into one |
| `LoadRun.StartsAreStaggered` | src/PrivateServer.NetworkRuntime.Benchmark/BenchmarkClientWorkload.cpp:500-509 | Each worker starts one interval of the whole run's rate, rounded down the same way, behind the one before, the first with the workload |
| `LoadRun.AccumulateWorkerResults` | src/PrivateServer.NetworkRuntime.Benchmark/BenchmarkClientWorkload.cpp:394-420 | The merge is the sum of the workers' results, and the error reported is the first failing worker's |
| `LoadRun.MergeAddsUp` | src/PrivateServer.NetworkRuntime.Benchmark/BenchmarkClientWorkload.cpp:394-413 | Each of the six counts is the sum of the workers' own, and each of the three lists is theirs one behind the other |
| `LoadRun.SettledRunIsValid` | src/PrivateServer.NetworkRuntime.Benchmark/BenchmarkClientWorkload.cpp:636-652 | When every worker succeeded the final validity check cannot fail, and the samples are exactly the measured requests of all workers |
| `ClosedLoop.NeitherSideFails` | src/PrivateServer.NetworkRuntime.Benchmark/BenchmarkServerEchoWorker.cpp:167-295 | In every run of clients, an echo worker, and a network that delivers at most once and nothing after a session closed, the worker accepts every request and the clients accept every response |
| `ClosedLoop.ServeAnswers` | src/PrivateServer.NetworkRuntime.Benchmark/BenchmarkServerEchoWorker.cpp:199-295 | A request that reaches the worker before the drain is answered with the times it was received and answered at, and one that arrives during the drain is not |
| `ClosedLoop.ReceiveCompletes` | src/PrivateServer.NetworkRuntime.Benchmark/BenchmarkClientWorkload.cpp:140-184 | An answer that arrives completes the request it answers and no other |
| `ClosedLoop.AnswerIsAccepted` | src/PrivateServer.NetworkRuntime.Benchmark/BenchmarkClientWorkload.cpp:111-185 | Every answer to a request still waiting passes the client's checks |
| `ClosedLoop.SecondCopyIsRefused` | src/PrivateServer.NetworkRuntime.Benchmark/BenchmarkClientWorkload.cpp:146-151 | A second copy of an answer is refused, so at-most-once delivery is needed |
| `Statistics.NearestRankIsPercentile` | src/PrivateServer.NetworkRuntime.Benchmark/BenchmarkStatistics.cpp:12-21 | The nearest rank is the least sample with at least p percent of the samples at or below it |
| `Statistics.PercentilesAreMonotone` | src/PrivateServer.NetworkRuntime.Benchmark/BenchmarkStatistics.cpp:12-21 | A larger percentile is never smaller |
| `Statistics.PercentileIsUnique` | src/PrivateServer.NetworkRuntime.Benchmark/BenchmarkStatistics.cpp:12-21 | Only one value is that percentile |
| `Statistics.SummarizeLatency` | src/PrivateServer.NetworkRuntime.Benchmark/BenchmarkStatistics.cpp:34-60 | None exactly without samples; otherwise the true extremes and percentiles of the samples, in order |
| `Statistics.SignedDelta` | src/PrivateServer.NetworkRuntime.Benchmark/BenchmarkStatistics.cpp:23-31 | The signed change, exactly when it fits |
| `PhaseGate.BuildPhaseSummary` | src/PrivateServer.NetworkRuntime.Benchmark/BenchmarkWorldMergedArtifact.cpp:225-311 | One pass gives the phase's samples, overruns, summaries and gate flags, and counts the unusable samples as complaints |
| `PhaseGate.P99WithinBudgetIff` | src/PrivateServer.NetworkRuntime.Benchmark/BenchmarkWorldMergedArtifact.cpp:256-261 | The 99th percentile is within a budget exactly when at most one sample in a hundred overruns it |
| `PhaseGate.OverrunGateImpliesP99Gate` | src/PrivateServer.NetworkRuntime.Benchmark/BenchmarkWorldMergedArtifact.cpp:297-301 | At 60 Hz the overrun gate implies the p99 gate |
| `PhaseGate.Verdict` | src/PrivateServer.NetworkRuntime.Benchmark/BenchmarkWorldMergedArtifact.cpp:374-501 | The verdict is valid exactly when identity, completeness, profile, client gate and every sample hold up and every phase keeps pace; the p99 gate adds nothing; the summaries tell of seconds 10 to 60, 60 to 120 and 120 to 180 |
| `PhaseGate.ValidIff` | src/PrivateServer.NetworkRuntime.Benchmark/BenchmarkWorldMergedArtifact.cpp:374-501 | A valid verdict in numbers: 60 Hz, 10,800 ticks, 100 clients, every sample readable, and in each of the three stretches of ticks after the first sample's fewer than one in a hundred with duration * 60 above 10^9 ns |
| `PhaseGate.SummaryTells` | src/PrivateServer.NetworkRuntime.Benchmark/BenchmarkWorldMergedArtifact.cpp:225-311 | A summary read off the samples: how many lie in its ticks, how many of those have duration * rate above 10^9 ns, and the gates: fewer than one in a hundred of those, at most one in a hundred of 16.67 ms or more |
| `PhaseGate.OverrunsIff` | src/PrivateServer.NetworkRuntime.Benchmark/BenchmarkWorldMergedArtifact.cpp:234-258 | A duration overruns the tick budget exactly when duration * rate exceeds 10^9 ns: the budget is the greatest whole number that fits |
| `PhaseGate.PhaseCountsAddUp` | src/PrivateServer.NetworkRuntime.Benchmark/BenchmarkWorldMergedArtifact.cpp:49-53 | The three phase counts add up to the samples from second 10 up to second 180, at any rate |
| `WorldClient.BenchmarkWorldClient.DrainAvailableEvents` | src/PrivateServer.NetworkRuntime.Benchmark/BenchmarkWorldClient.cpp:311-406 | The client ends in the state the drain specification gives for what the queue held, with the same error |
| `WorldClient.BenchmarkWorldClient.SendControlState` | src/PrivateServer.NetworkRuntime.Benchmark/BenchmarkWorldClient.cpp:408-440 | Sends under the next number, or leaves everything as it was and says why |
| `WorldClient.DrainIff` | src/PrivateServer.NetworkRuntime.Benchmark/BenchmarkWorldClient.cpp:322-406 | A playing client gets through its queue exactly when every read up to the first result is clean, each rebind going on from the entity the one before left; it then controls the entity the last rebind names and holds the result received, and nothing behind that was looked at |
| `WorldClient.DrainErrorIsTrue` | src/PrivateServer.NetworkRuntime.Benchmark/BenchmarkWorldClient.cpp:322-406 | A drain that fails says what is wrong with the first read that is not clean: undecodable, inconsistent with the entity held, a shutdown that failed, a lost connection, another event, or a queue that could not be read |
| `WorldClient.ReadsKeepSound` | src/PrivateServer.NetworkRuntime.Benchmark/BenchmarkWorldClient.cpp:322-406 | A drain without error leaves a client playing or done; a rebind restarts its numbers, and nothing else changes them |
| `WorldClient.SoundIsNeverRefused` | src/PrivateServer.NetworkRuntime.Benchmark/BenchmarkWorldClient.cpp:317-320 | A client that is playing or done is never refused the drain, and a playing one is refused a send only when its numbers are exhausted |
| `ControlFleet.Fleet.DrainPass` | src/PrivateServer.NetworkRuntime.Benchmark/BenchmarkWorldClientWorkload.cpp:385-414 | A pass without error drains every client and then gives every due bot its turn, keeps every member of the fleet sound, and the count of commands is that of all clients together; the state and count complaints are unreachable |
| `ControlFleet.TurnIsTakenIff` | src/PrivateServer.NetworkRuntime.Benchmark/BenchmarkWorldClientWorkload.cpp:345-381 | A bot acts exactly when its client has no result and its time has come; it then rolls, waits one interval from now, and has its client ask for the roll unless that was asked for last; otherwise nothing about the member changes |
| `ControlFleet.RollBands` | src/PrivateServer.NetworkRuntime.Benchmark/BenchmarkWorldClientWorkload.cpp:354-366 | Of a hundred turn rolls the first fifty go straight, the next twenty-five left and the last right, and boost is on for as many boost rolls as the percentage says |
| `ControlFleet.ActsOncePerInterval` | src/PrivateServer.NetworkRuntime.Benchmark/BenchmarkWorldClientWorkload.cpp:345-381 | Over any run of passes two turns of a bot are at least an interval apart, and after a turn it acts again in the first pass an interval later unless its client has a result |
| `ControlFleet.FleetPassIsMemberPass` | src/PrivateServer.NetworkRuntime.Benchmark/BenchmarkWorldClientWorkload.cpp:385-414 | A pass of the fleet is, for each member, a pass of its own |
| `ControlFleet.Fleet.RollAndSend` | src/PrivateServer.NetworkRuntime.Benchmark/BenchmarkWorldClientWorkload.cpp:345-381 | A due bot's turn changes that member alone, as specified, and the commands sent are counted |
| `ControlFleet.TurnKeepsMember` | src/PrivateServer.NetworkRuntime.Benchmark/BenchmarkWorldClientWorkload.cpp:345-381 | A turn keeps the member sound: its dice never stick, its numbers continue, and the command differs from the last |
| `ControlFleet.Fleet.Admit` | src/PrivateServer.NetworkRuntime.Benchmark/BenchmarkWorldClientWorkload.cpp:120-139 | An admitted client and its bot start sound, with a seed that is not zero |
| `ControlFleet.ConsecutiveCommandsDiffer` | src/PrivateServer.NetworkRuntime.Benchmark/BenchmarkWorldClientWorkload.cpp:367-379 | Two commands of one client with only rebinds between them differ in generation or in what they ask for, and numbers run 1, 2, 3 between rebinds |
| `ControlFleet.RebindIsAnnouncedIff` | src/PrivateServer.NetworkRuntime.Benchmark/BenchmarkWorldClientWorkload.cpp:345-379 | At a fleet's own boost percentage, whichever from 0 to 100: a bot up to date with its client announces a rebind at its next turn for every state of its dice exactly when the rebind changes the generation, or the percentage is 0 and boost was last on, or it is 100 and boost was last off |
| `ControlFleet.EveryRollComesUp` | src/PrivateServer.NetworkRuntime.Benchmark/BenchmarkWorldClientWorkload.cpp:323-366 | At any percentage some state of the dice that is not zero asks for any given turn together with any boost the percentage allows |
| `ControlFleet.RebindMayGoUnnoticed` | src/PrivateServer.WorldServer/ControlledEntityRebind.h:101-107 | At every percentage, for every turn and allowed boost last sent, a sound member and a rebind to another entity of the same generation exist such that the rebind passes the checks and the next turn sends nothing |
| `ControlFleet.Fleet.ValidateRoundResults` | src/PrivateServer.NetworkRuntime.Benchmark/BenchmarkWorldClientWorkload.cpp:302-321 | Succeeds exactly when every client has its result and all agree |
| `Xorshift.StepIsBijection` | src/PrivateServer.NetworkRuntime.Benchmark/BenchmarkWorldClientWorkload.cpp:323-331 | The 13/17/5 step is a bijection on 32-bit words |
| `Xorshift.OnlyZeroLeadsToZero` | src/PrivateServer.NetworkRuntime.Benchmark/BenchmarkWorldClientWorkload.cpp:323-331 | Zero is a fixed point and the only word that leads to zero |
| `Xorshift.NeverZero` | src/PrivateServer.NetworkRuntime.Benchmark/BenchmarkWorldClientWorkload.cpp:126-130 | With the zero-seed replacement no bot's state is ever zero |
| `Xorshift.SeedsDifferIff` | src/PrivateServer.NetworkRuntime.Benchmark/BenchmarkWorldClientWorkload.cpp:126-130 | A client's seed is the sum wrapped to 32 bits, with zero replaced by 0x9E3779B9; two clients share a seed only when one of them has that replacement |

## Left out

- Weak memory: the logger's steps are sequentially consistent; the orderings written in the source are not modelled.
- LoggerReports.ReportIsTrue: the fan-out's four fields, the queue's size and the maximum depth are read in one step at the end of a capture, where the source reads them one after the other; the worker may move between those reads.
- The logger's configuration checks.
- spdlog and nlohmann::json internals: a bounded FIFO with a discard counter, and a printer and parser that are inverse on documents whose texts are well-formed; the only failure of the queue library modelled is the lost message copy.
- Exceptions from the queue-size and discard-counter calls after a record was posted: they would count a record as filtered as well.
- Wrap-around of `size_t` counters that are not saturating (raw attempts, active producers) and of the load worker's statistics.
- FanoutSink.FanoutSink.constructor: does not model the exceptions for an invalid configuration or for two missing outputs.
- RotatingFile.RotatingFileOutput.Write: a write that throws is taken to have written nothing, so a partial line at the end of a file is not modelled.
- LinePipe.LineWriter.WriteLine: the bytes of a write that stopped half-way are not modelled; null pointers and invalid handles are not either.
- Quoting.Split: transcoding between UTF-8 and UTF-16 is taken as the identity.
- LogEnvelope.TryDecode: refuses a boolean where an unsigned number is expected and has no floating-point numbers; the JSON library, which is not part of this model, converts floating-point numbers and some booleans, so the program accepts a little more than the model. Milliseconds times 10,000 is an unbounded integer, where the 64-bit time point of the source overflows on documents with more than about 9.2e14 milliseconds either way.
- BuildWorldHostCommandLine: uses the same quoting with other options, which adds only another list of tokens.
- LoadWorker.LoadWorker.Run: clock readings are unbounded integers cut to 64 bits where the source stores them; sleeping and yielding only let the clock move.
- Connecting, disconnecting and shutting down load clients, thread creation and its cancellation flags.
- ClosedLoop: no request is delivered after its session closed; a worker that is not draining would fail on one.
- EchoServer: starting and joining the thread; the drain and stop flags are seen at the moment the queue is looked at.
- Statistics.SummarizeLatency: leaves out the floating-point mean; `std::sort` is any sort.
- PhaseGate.BuildPhaseSummary: compares the overrun ratio as an exact rational where the source compares doubles, and does not wrap the 64-bit product of seconds and tick rate; reading the artifacts is an input.
- SummarizeProcess and the CPU percentages: floating point.
- WorldClient: the join handshake; a client enters the model as Start leaves it.
- ControlFleet: the condition variable, waiting for round results, and Shutdown; each critical section is one method call.
- Xorshift: words are sequences of 32 bits rather than machine integers.
- Win32 handles, processes, files and clocks; configuration readers, JSON command and event codecs, artifact writers and formatters; the Godot client, the actor classes and the C ABI.
