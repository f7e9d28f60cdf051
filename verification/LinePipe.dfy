/** Newline framing over a byte pipe that may split and merge what was written. */
module LinePipe {
  import opened Prelude

  const MAXIMUM_LINE_BYTES := 64 * 1024
  const READ_BUFFER_BYTES := 4096
  const NEWLINE: byte := 0x0A

  /** What one read of the pipe gives. A read of no bytes reports that the writer wrote none. */
  datatype PipeRead = Data(bytes: seq<byte>) | BrokenPipe | Failure

  datatype LineResult = Line(line: seq<byte>) | EndOfStream | LineTooLong | IncompleteLine | ReadFailed

  /** The position of the first newline; the length when there is none. */
  function FirstNewline(s: seq<byte>): (i: nat)
    ensures i <= |s| && NoNewlineBefore(s, i) && (i < |s| ==> s[i] == NEWLINE)
  {
    if s == [] || s[0] == NEWLINE then 0 else 1 + FirstNewline(s[1..])
  }

  predicate NoNewlineBefore(s: seq<byte>, i: nat)
    requires i <= |s|
  {
    forall k | 0 <= k < i :: s[k] != NEWLINE
  }

  lemma FirstNewlineIsUnique(s: seq<byte>, i: nat)
    requires i <= |s| && NoNewlineBefore(s, i) && (i < |s| ==> s[i] == NEWLINE)
    ensures FirstNewline(s) == i
  {
  }

  // ---------- What the pipe delivers ----------

  /** The bytes that arrive before the pipe ends or fails; a closed pipe stays broken. */
  function Upcoming(arrivals: seq<PipeRead>): seq<byte> {
    if arrivals == [] || !arrivals[0].Data? || arrivals[0].bytes == [] then [] else arrivals[0].bytes + Upcoming(arrivals[1..])
  }

  /** Whether a failure other than a broken pipe comes next after those bytes. */
  predicate FailsNext(arrivals: seq<PipeRead>) {
    arrivals != [] && (arrivals[0].Failure? || (arrivals[0].Data? && arrivals[0].bytes != [] && FailsNext(arrivals[1..])))
  }

  /** The reads after the one that ends or fails. */
  function AfterEnding(arrivals: seq<PipeRead>): seq<PipeRead> {
    if arrivals == [] then []
    else if arrivals[0].Data? && arrivals[0].bytes != [] then AfterEnding(arrivals[1..])
    else arrivals[1..]
  }

  /** What a reader of the whole stream would answer: no mention of how the bytes arrive. */
  function NextLine(stream: seq<byte>, fails: bool): LineResult {
    var i := FirstNewline(stream);
    if i > MAXIMUM_LINE_BYTES then LineTooLong
    else if i < |stream| then Line(stream[..i])
    else if fails then ReadFailed
    else if stream == [] then EndOfStream
    else IncompleteLine
  }

  /**
   A line is what stands before the first newline, if that is at most 64 KiB; more than 64 KiB without one are too long;
   and without a newline what is left over is a failed read, the end, or a line cut off.
   */
  lemma NextLineIff(stream: seq<byte>, fails: bool, line: seq<byte>)
    ensures var answer := NextLine(stream, fails);
      && (answer == Line(line) <==>
            |line| <= 65_536 && 0x0A !in line && |line| < |stream| && stream[..|line|] == line
            && stream[|line|] == 0x0A)
      && (answer == LineTooLong <==> |stream| > 65_536 && 0x0A !in stream[..65_537])
      && (answer == ReadFailed <==> |stream| <= 65_536 && 0x0A !in stream && fails)
      && (answer == EndOfStream <==> stream == [] && !fails)
      && (answer == IncompleteLine <==> 0 < |stream| <= 65_536 && 0x0A !in stream && !fails)
  {
    var i := FirstNewline(stream);
    if |line| < |stream| && stream[|line|] == 0x0A && stream[..|line|] == line && 0x0A !in line {
      forall k | 0 <= k < |line|
        ensures stream[k] != NEWLINE
      {
        assert stream[k] == line[k] && line[k] in line;
      }
      FirstNewlineIsUnique(stream, |line|);
    }
    assert i < |stream| ==> stream[i] in stream && 0x0A !in stream[..i];
    if i < |stream| && |stream| > 65_536 {
      assert i <= 65_536 ==> stream[..65_537][i] == 0x0A;
    }
  }

  /** A newline that has arrived decides the line, whatever is still to come. */
  lemma LineHasArrived(pending: seq<byte>, more: seq<byte>)
    requires FirstNewline(pending) < |pending|
    ensures var i := FirstNewline(pending);
      && FirstNewline(pending + more) == i && (pending + more)[..i] == pending[..i]
      && pending + more == pending[..i] + [NEWLINE] + (pending[i + 1..] + more)
  {
    FirstNewlineIsUnique(pending + more, FirstNewline(pending));
  }

  lemma ArrivedLineIsNext(pending: seq<byte>, more: seq<byte>, fails: bool)
    requires FirstNewline(pending) < |pending|
    ensures var i := FirstNewline(pending);
      && NextLine(pending + more, fails) == (if i > MAXIMUM_LINE_BYTES then LineTooLong else Line(pending[..i]))
      && pending + more == pending[..i] + [NEWLINE] + (pending[i + 1..] + more)
  {
    LineHasArrived(pending, more);
  }

  /** Without a newline so far, the line is at least as long as what has arrived. */
  lemma NoNewlineSoFar(pending: seq<byte>, more: seq<byte>)
    requires FirstNewline(pending) == |pending|
    ensures FirstNewline(pending + more) >= |pending|
  {
    assert forall k | 0 <= k < |pending| :: (pending + more)[k] == pending[k];
  }

  lemma ArrivalKeepsStream(pending: seq<byte>, arrivals: seq<PipeRead>)
    requires arrivals != [] && arrivals[0].Data? && arrivals[0].bytes != []
    ensures pending + arrivals[0].bytes + Upcoming(arrivals[1..]) == pending + Upcoming(arrivals)
  {
  }

  // ---------- The reader ----------

  class LineReader {
    var pending: seq<byte>
    /** What the pipe will still give. */
    var arrivals: seq<PipeRead>

    ghost predicate Valid()
      reads this
    {
      && |pending| <= MAXIMUM_LINE_BYTES + READ_BUFFER_BYTES
      && forall k | 0 <= k < |arrivals| :: arrivals[k].Data? ==> |arrivals[k].bytes| <= READ_BUFFER_BYTES
    }

    ghost function Contents(): seq<byte>
      reads this
    {
      pending + Upcoming(arrivals)
    }

    constructor (arrivals: seq<PipeRead>)
      requires forall k | 0 <= k < |arrivals| :: arrivals[k].Data? ==> |arrivals[k].bytes| <= READ_BUFFER_BYTES
      ensures Valid() && this.arrivals == arrivals && pending == []
    {
      pending, this.arrivals := [], arrivals;
    }

    /** However the stream is split into reads, the answer is the one for the whole stream, and nothing is lost. */
    method ReadLine() returns (result: LineResult)
      requires Valid()
      modifies this
      ensures Valid()
      ensures result == NextLine(old(Contents()), FailsNext(old(arrivals)))
      ensures result.Line? ==> old(Contents()) == result.line + [NEWLINE] + Contents()
      ensures result.LineTooLong? ==> Contents() == old(Contents())
      ensures result.Line? || result.LineTooLong? ==>
        FailsNext(arrivals) == FailsNext(old(arrivals)) && AfterEnding(arrivals) == AfterEnding(old(arrivals))
      ensures !result.Line? && !result.LineTooLong? ==>
        pending == old(Contents()) && arrivals == AfterEnding(old(arrivals))
    {
      ghost var stream, start := Contents(), arrivals;
      while true
        invariant Valid() && Contents() == stream
        invariant FailsNext(arrivals) == FailsNext(start) && AfterEnding(arrivals) == AfterEnding(start)
        decreases |arrivals|
      {
        var newline := FirstNewline(pending);
        if newline < |pending| {
          ArrivedLineIsNext(pending, Upcoming(arrivals), FailsNext(start));
          if newline > MAXIMUM_LINE_BYTES {
            return LineTooLong;
          }
          var line := pending[..newline];
          pending := pending[newline + 1..];
          return Line(line);
        }
        NoNewlineSoFar(pending, Upcoming(arrivals));
        if |pending| > MAXIMUM_LINE_BYTES {
          return LineTooLong;
        }
        if arrivals == [] {
          return if pending == [] then EndOfStream else IncompleteLine;
        }
        var next := arrivals[0];
        if next.Data? && next.bytes != [] {
          ArrivalKeepsStream(pending, arrivals);
        } else {
          assert pending == stream;
        }
        arrivals := arrivals[1..];
        match next {
          case Failure =>
            return ReadFailed;
          case BrokenPipe =>
            return if pending == [] then EndOfStream else IncompleteLine;
          case Data(bytes) =>
            if bytes == [] {
              return if pending == [] then EndOfStream else IncompleteLine;
            }
            pending := pending + bytes;
        }
      }
    }
  }

  // ---------- The writer ----------

  predicate Sendable(line: seq<byte>) {
    |line| <= MAXIMUM_LINE_BYTES && NoNewlineBefore(line, |line|)
  }

  datatype WriteResult = Written | RefusedTooLong | RefusedNewline | WriteFailed

  class LineWriter {
    /** The writes that went through whole, one entry each. */
    var writes: seq<seq<byte>>

    constructor ()
      ensures writes == []
    {
      writes := [];
    }

    /** One native write; `complete` is whether the system took every byte. */
    method WriteExact(bytes: seq<byte>, complete: bool)
      modifies this
      ensures writes == if complete then old(writes) + [bytes] else old(writes)
    {
      if complete {
        writes := writes + [bytes];
      }
    }

    /** Writes the line and then its newline; a refused line writes nothing. */
    method WriteLine(line: seq<byte>, lineTaken: bool, newlineTaken: bool) returns (result: WriteResult)
      modifies this
      ensures result.RefusedTooLong? || result.RefusedNewline? <==> !Sendable(line)
      ensures result.RefusedTooLong? <==> |line| > MAXIMUM_LINE_BYTES
      ensures result.Written? <==> Sendable(line) && lineTaken && newlineTaken
      ensures result.Written? ==> writes == old(writes) + WritesOf([line])
      ensures !result.Written? ==> writes == if Sendable(line) && lineTaken then old(writes) + [line] else old(writes)
    {
      if |line| > MAXIMUM_LINE_BYTES {
        return RefusedTooLong;
      }
      if FirstNewline(line) != |line| {
        return RefusedNewline;
      }
      WriteExact(line, lineTaken);
      if !lineTaken {
        return WriteFailed;
      }
      WriteExact([NEWLINE], newlineTaken);
      assert WritesOf([line][1..]) == [];
      return if newlineTaken then Written else WriteFailed;
    }
  }

  /** The native writes that send `lines`. */
  function WritesOf(lines: seq<seq<byte>>): seq<seq<byte>> {
    if lines == [] then [] else [lines[0], [NEWLINE]] + WritesOf(lines[1..])
  }

  // ---------- Framing ----------

  function Frame(lines: seq<seq<byte>>): seq<byte> {
    if lines == [] then [] else lines[0] + [NEWLINE] + Frame(lines[1..])
  }

  /** What repeated ReadLine calls answer on a stream that ends cleanly: the lines, and how it stops. */
  function ReadLines(stream: seq<byte>): (r: (seq<seq<byte>>, LineResult))
    ensures !r.1.Line?
    decreases |stream|
  {
    var next := NextLine(stream, false);
    if next.Line? then
      var (lines, ending) := ReadLines(stream[|next.line| + 1..]);
      ([next.line] + lines, ending)
    else ([], next)
  }

  lemma FramedLineIsRead(line: seq<byte>, rest: seq<byte>)
    requires Sendable(line)
    ensures ReadLines(line + [NEWLINE] + rest) == ([line] + ReadLines(rest).0, ReadLines(rest).1)
  {
    var stream := line + [NEWLINE] + rest;
    FirstNewlineIsUnique(stream, |line|);
    assert stream[..|line|] == line && stream[|line| + 1..] == rest;
  }

  /** Lines that may be written are read back exactly, in order, and then the stream ends. */
  lemma {:induction false} FramedLinesAreRead(lines: seq<seq<byte>>)
    requires forall k | 0 <= k < |lines| :: Sendable(lines[k])
    ensures ReadLines(Frame(lines)) == (lines, EndOfStream)
  {
    if lines != [] {
      FramedLineIsRead(lines[0], Frame(lines[1..]));
      FramedLinesAreRead(lines[1..]);
      assert lines == [lines[0]] + lines[1..];
    }
  }

  lemma FrameBegins(line: seq<byte>, lines: seq<seq<byte>>, rest: seq<byte>)
    ensures Frame([line] + lines) == line + [NEWLINE] + Frame(lines)
    ensures Frame(lines) <= rest ==> Frame([line] + lines) <= line + [NEWLINE] + rest
    ensures Frame([line] + lines) == line + [NEWLINE] + rest <==> Frame(lines) == rest
  {
    assert ([line] + lines)[1..] == lines;
    var start := line + [NEWLINE];
    assert (start + Frame(lines))[|start|..] == Frame(lines) && (start + rest)[|start|..] == rest;
  }

  /** Nothing else ends cleanly: a stream read to its end is the framing of the lines read. */
  lemma {:induction false} CleanStreamsAreFramed(stream: seq<byte>)
    ensures var (lines, ending) := ReadLines(stream);
      && (forall k | 0 <= k < |lines| :: Sendable(lines[k]))
      && Frame(lines) <= stream
      && (ending == EndOfStream <==> stream == Frame(lines))
    decreases |stream|
  {
    var next := NextLine(stream, false);
    if next.Line? {
      var n := |next.line|;
      CleanStreamsAreFramed(stream[n + 1..]);
      assert stream == next.line + [NEWLINE] + stream[n + 1..];
      FrameBegins(next.line, ReadLines(stream[n + 1..]).0, stream[n + 1..]);
    }
  }

  // ---------- Empty lines ----------

  /** Pieces joined up to each empty piece: what a pipe keeps apart. */
  function Segments(pieces: seq<seq<byte>>): (r: seq<seq<byte>>)
    ensures r != []
  {
    if pieces == [] then [[]]
    else
      var rest := Segments(pieces[1..]);
      if pieces[0] == [] then [[]] + rest else [pieces[0] + rest[0]] + rest[1..]
  }

  /**
   The reads a pipe may give for the writes: bytes split and merged at will, except that a write of no bytes surfaces
   as a read of no bytes in its place.
   */
  ghost predicate Delivers(arrivals: seq<PipeRead>, writes: seq<seq<byte>>) {
    && (forall k | 0 <= k < |arrivals| :: arrivals[k].Data? && |arrivals[k].bytes| <= READ_BUFFER_BYTES)
    && Segments(Chunks(arrivals)) == Segments(writes)
  }

  function Chunks(arrivals: seq<PipeRead>): seq<seq<byte>>
    requires forall k | 0 <= k < |arrivals| :: arrivals[k].Data?
  {
    if arrivals == [] then [] else [arrivals[0].bytes] + Chunks(arrivals[1..])
  }

  lemma {:induction false} UpcomingIsFirstSegment(arrivals: seq<PipeRead>)
    requires forall k | 0 <= k < |arrivals| :: arrivals[k].Data?
    ensures Upcoming(arrivals) == Segments(Chunks(arrivals))[0]
  {
    if arrivals != [] {
      UpcomingIsFirstSegment(arrivals[1..]);
      assert Chunks(arrivals)[1..] == Chunks(arrivals[1..]);
    }
  }

  /** The lines in front of the first empty one. */
  function BeforeEmpty(lines: seq<seq<byte>>): seq<seq<byte>> {
    if lines == [] || lines[0] == [] then [] else [lines[0]] + BeforeEmpty(lines[1..])
  }

  lemma {:induction false} FirstSegmentOfWrites(lines: seq<seq<byte>>)
    ensures Segments(WritesOf(lines))[0] == Frame(BeforeEmpty(lines))
  {
    if lines != [] {
      var writes := WritesOf(lines);
      assert writes[1..] == [[NEWLINE]] + WritesOf(lines[1..]) && writes[1..][1..] == WritesOf(lines[1..]);
      if lines[0] != [] {
        FirstSegmentOfWrites(lines[1..]);
        assert BeforeEmpty(lines)[1..] == BeforeEmpty(lines[1..]);
      }
    }
  }

  lemma {:induction false} BeforeEmptyIsAllIff(lines: seq<seq<byte>>)
    ensures BeforeEmpty(lines) <= lines
    ensures BeforeEmpty(lines) == lines <==> [] !in lines
  {
    if lines != [] && lines[0] != [] {
      BeforeEmptyIsAllIff(lines[1..]);
      assert lines == [lines[0]] + lines[1..];
    }
  }

  /**
   Whatever reads the pipe gives for lines the writer accepts, the reader answers the lines before the first empty one
   and then the end of the stream. So all of them come through exactly when none is empty: the writer sends an empty
   line as a write of no bytes, which the reader takes for the end.
   */
  lemma LinesComeThroughIffNoneEmpty(lines: seq<seq<byte>>, arrivals: seq<PipeRead>)
    requires forall k | 0 <= k < |lines| :: Sendable(lines[k])
    requires Delivers(arrivals, WritesOf(lines))
    ensures ReadLines(Upcoming(arrivals)) == (BeforeEmpty(lines), EndOfStream)
    ensures ReadLines(Upcoming(arrivals)).0 == lines <==> [] !in lines
  {
    UpcomingIsFirstSegment(arrivals);
    FirstSegmentOfWrites(lines);
    BeforeEmptyIsAllIff(lines);
    FramedLinesAreRead(BeforeEmpty(lines));
  }
}
