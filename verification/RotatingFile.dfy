/**
 The rotating log file: segments shift through numbered backups and the directory always holds the newest lines.
 A directory maps 0 to the active file and k > 0 to backup k. A file-system call may throw; how many calls succeed
 before one does is an input, and a call that throws has changed nothing.
 */
module RotatingFile {
  import opened Prelude

  type Line = seq<byte>

  type Directory = map<nat, seq<Line>>

  // ---------- What a directory holds ----------

  function Content(files: Directory, index: nat): seq<Line> {
    if index in files then files[index] else []
  }

  /** The lines of backups k..1, oldest first. */
  function Backups(files: Directory, k: nat): seq<Line> {
    if k == 0 then [] else Content(files, k) + Backups(files, k - 1)
  }

  /** Every line the directory holds, oldest first. */
  function Stream(files: Directory, backupCount: nat): seq<Line> {
    Backups(files, backupCount) + Content(files, 0)
  }

  function Bytes(lines: seq<Line>, eolBytes: nat): nat {
    if lines == [] then 0 else Bytes(lines[..|lines| - 1], eolBytes) + |lines[|lines| - 1]| + eolBytes
  }

  /** The active file and backups 1..m, nothing else. */
  ghost predicate Occupies(files: Directory, m: nat) {
    forall k: nat :: k in files <==> k <= m
  }

  /** A segment fits in the rotation size, or is one line that is too long for it. */
  ghost predicate SegmentsFit(files: Directory, rotationBytes: nat, eolBytes: nat) {
    forall k | k in files :: Bytes(files[k], eolBytes) <= rotationBytes || |files[k]| == 1
  }

  // ---------- One rotation ----------

  function Slot(files: Directory, k: nat): Option<seq<Line>> {
    if k in files then Some(files[k]) else None
  }

  /** What slot k > 0 of a rotated directory holds: the next newer file; the last slot keeps its own if none arrives. */
  function RotatedSlot(files: Directory, backupCount: nat, k: nat): Option<seq<Line>>
    requires k > 0
  {
    if k <= backupCount && k - 1 in files then Some(files[k - 1])
    else if k >= backupCount then Slot(files, k)
    else None
  }

  ghost predicate IsRotated(before: Directory, after: Directory, backupCount: nat) {
    && Slot(after, 0) == Some([])
    && forall k: nat | k > 0 :: Slot(after, k) == RotatedSlot(before, backupCount, k)
  }

  /** Half-way through a rotation: the slots above `index` are done, those below are as before. */
  ghost predicate ShiftedAbove(before: Directory, now: Directory, backupCount: nat, index: nat) {
    && index <= backupCount
    && (forall k: nat | k < index :: Slot(now, k) == Slot(before, k))
    && Slot(now, index) == (if index < backupCount then None else Slot(before, index))
    && (forall k: nat | k > index :: Slot(now, k) == RotatedSlot(before, backupCount, k))
  }

  /** The source of the next rename is missing: its target keeps what it has. */
  lemma SkipShifts(before: Directory, now: Directory, backupCount: nat, index: nat)
    requires index > 0 && ShiftedAbove(before, now, backupCount, index) && index - 1 !in now
    ensures ShiftedAbove(before, now, backupCount, index - 1)
  {
    assert Slot(now, index - 1) == Slot(before, index - 1);
  }

  /** The target is free or freed, and the source moves there. */
  lemma RenameShifts(before: Directory, now: Directory, backupCount: nat, index: nat)
    requires index > 0 && ShiftedAbove(before, now, backupCount, index) && index - 1 in now
    ensures ShiftedAbove(before, (now - {index})[index := now[index - 1]] - {index - 1}, backupCount, index - 1)
  {
    assert Slot(now, index - 1) == Slot(before, index - 1);
  }

  lemma ShiftedIsRotated(before: Directory, now: Directory, backupCount: nat)
    requires ShiftedAbove(before, now, backupCount, 0) && backupCount > 0
    ensures IsRotated(before, now[0 := []], backupCount)
  {
    assert forall k: nat | k > 0 :: Slot(now[0 := []], k) == Slot(now, k);
  }

  /** Renaming a file into the free slot after it moves no line past another. */
  lemma {:induction false} RenameKeepsBackups(files: Directory, source: nat, k: nat)
    requires source in files && source + 1 !in files && source > 0
    ensures k != source ==> Backups(files[source + 1 := files[source]] - {source}, k) == Backups(files, k)
    ensures Backups(files[source + 1 := files[source]] - {source}, source) == Backups(files, source - 1)
  {
    var after := files[source + 1 := files[source]] - {source};
    if k > source + 1 || k < source {
      if k > 0 { RenameKeepsBackups(files, source, k - 1); }
    } else if k == source + 1 {
      RenameKeepsBackups(files, source, source - 1);
      assert Content(after, source) == [];
    }
    BackupsDependOnTheirSlots(files, after, source - 1);
  }

  lemma {:induction false} BackupsDependOnTheirSlots(files: Directory, other: Directory, k: nat)
    requires forall j | 1 <= j <= k :: Content(files, j) == Content(other, j)
    ensures Backups(files, k) == Backups(other, k)
  {
    if k > 0 {
      BackupsDependOnTheirSlots(files, other, k - 1);
    }
  }

  lemma RenameKeepsStream(files: Directory, source: nat, backupCount: nat)
    requires source in files && source + 1 !in files && source < backupCount
    ensures Stream(files[source + 1 := files[source]] - {source}, backupCount) == Stream(files, backupCount)
  {
    if source > 0 {
      RenameKeepsBackups(files, source, backupCount);
    } else {
      ActiveBecomesNewest(files, backupCount);
    }
  }

  lemma {:induction false} ActiveBecomesNewest(files: Directory, k: nat)
    requires 0 in files && 1 !in files && k >= 1
    ensures Backups(files[1 := files[0]] - {0}, k) == Backups(files, k) + files[0]
  {
    var after := files[1 := files[0]] - {0};
    if k > 1 {
      ActiveBecomesNewest(files, k - 1);
    } else {
      assert Backups(after, 1) == files[0] + Backups(after, 0);
    }
  }

  /** Removing the oldest backup drops a front part of the stream. */
  lemma RemoveOldestDropsFront(files: Directory, backupCount: nat)
    requires backupCount in files && backupCount > 0
    ensures IsSuffix(Stream(files - {backupCount}, backupCount), Stream(files, backupCount))
  {
    BackupsDependOnTheirSlots(files, files - {backupCount}, backupCount - 1);
  }

  lemma SuffixTransitive<T>(a: seq<T>, b: seq<T>, c: seq<T>)
    requires IsSuffix(a, b) && IsSuffix(b, c)
    ensures IsSuffix(a, c)
  {
  }

  lemma SuffixAppend<T>(a: seq<T>, b: seq<T>, x: T)
    requires IsSuffix(a, b)
    ensures IsSuffix(a + [x], b + [x])
  {
  }

  lemma AppendToActive(files: Directory, backupCount: nat, line: Line)
    requires 0 in files
    ensures Stream(files[0 := files[0] + [line]], backupCount) == Stream(files, backupCount) + [line]
  {
    BackupsDependOnTheirSlots(files, files[0 := files[0] + [line]], backupCount);
  }

  /** What a rotation loses: the oldest backup, when a newer file takes its place. */
  function Dropped(before: Directory, backupCount: nat): seq<Line> {
    if backupCount > 0 && backupCount - 1 in before then Content(before, backupCount) else []
  }

  lemma {:induction false} ShiftedBackups(before: Directory, after: Directory, backupCount: nat, k: nat)
    requires IsRotated(before, after, backupCount) && 0 < k < backupCount
    ensures Backups(after, k) == Backups(before, k - 1) + Content(before, 0)
  {
    assert Slot(after, k) == RotatedSlot(before, backupCount, k);
    if k > 1 {
      ShiftedBackups(before, after, backupCount, k - 1);
    } else {
      assert Backups(after, 1) == Content(after, 1) + Backups(after, 0);
    }
  }

  lemma SingleBackupDropsOldest(before: Directory, after: Directory)
    requires IsRotated(before, after, 1)
    ensures Stream(before, 1) == Dropped(before, 1) + Stream(after, 1)
  {
    assert Slot(after, 1) == RotatedSlot(before, 1, 1);
    assert Backups(after, 1) == Content(after, 1) + Backups(after, 0);
    assert Backups(before, 1) == Content(before, 1) + Backups(before, 0);
  }

  /** A rotation loses exactly the oldest segment: the new stream continues where the dropped lines end. */
  lemma RotationDropsOldest(before: Directory, after: Directory, backupCount: nat)
    requires backupCount > 0 && IsRotated(before, after, backupCount)
    ensures Stream(before, backupCount) == Dropped(before, backupCount) + Stream(after, backupCount)
  {
    assert Slot(after, backupCount) == RotatedSlot(before, backupCount, backupCount);
    if backupCount > 1 {
      ShiftedBackups(before, after, backupCount, backupCount - 1);
      assert Backups(before, backupCount - 1) == Content(before, backupCount - 1) + Backups(before, backupCount - 2);
    } else {
      SingleBackupDropsOldest(before, after);
    }
  }

  /** What holds of a directory that started empty while no call has thrown. */
  ghost predicate TidyDirectory(files: Directory, history: seq<Line>, rotations: nat, backupCount: nat,
                                rotationBytes: nat, eolBytes: nat) {
    && Occupies(files, Min(rotations, backupCount))
    && SegmentsFit(files, rotationBytes, eolBytes)
    && (rotations <= backupCount ==> Stream(files, backupCount) == history)
  }

  lemma TidyAfterRotation(before: Directory, after: Directory, history: seq<Line>, rotations: nat, backupCount: nat,
                          rotationBytes: nat, eolBytes: nat)
    requires backupCount > 0 && IsRotated(before, after, backupCount)
    requires TidyDirectory(before, history, rotations, backupCount, rotationBytes, eolBytes)
    requires backupCount !in before ==> Stream(after, backupCount) == Stream(before, backupCount)
    ensures TidyDirectory(after, history, rotations + 1, backupCount, rotationBytes, eolBytes)
  {
    assert Slot(after, 0) == Some([]);
    forall k: nat | k > 0
      ensures k in after <==> k <= Min(rotations + 1, backupCount)
      ensures k in after ==> k - 1 in before && after[k] == before[k - 1]
    {
      assert Slot(after, k) == RotatedSlot(before, backupCount, k);
    }
  }

  lemma TidyAfterAppend(files: Directory, history: seq<Line>, rotations: nat, backupCount: nat, line: Line,
                        rotationBytes: nat, eolBytes: nat)
    requires TidyDirectory(files, history, rotations, backupCount, rotationBytes, eolBytes)
    requires 0 in files && (files[0] == [] || Bytes(files[0], eolBytes) + |line| + eolBytes <= rotationBytes)
    ensures TidyDirectory(files[0 := files[0] + [line]], history + [line], rotations, backupCount, rotationBytes,
                          eolBytes)
  {
    BytesAfterAppend(files[0], line, eolBytes);
    AppendToActive(files, backupCount, line);
  }

  lemma BytesAfterAppend(lines: seq<Line>, line: Line, eolBytes: nat)
    ensures Bytes(lines + [line], eolBytes) == Bytes(lines, eolBytes) + |line| + eolBytes
  {
    assert (lines + [line])[..|lines|] == lines;
  }

  lemma EmptyOrPositive(lines: seq<Line>, eolBytes: nat)
    requires eolBytes > 0
    ensures Bytes(lines, eolBytes) == 0 <==> lines == []
  {
  }

  lemma EmptiedAgain(files: Directory, line: Line)
    ensures 0 in files && files[0] == [] ==>
      files[0 := files[0] + [line]][0] == [line] && files[0 := files[0] + [line]][0 := []] == files
  {
  }

  /** How many calls one write may make: flush, then look, look, remove and rename for each slot, reopen and write. */
  function MostCalls(backupCount: nat): nat {
    4 * backupCount + 3
  }

  // ---------- The output ----------

  class RotatingFileOutput {
    const rotationBytes: nat
    const rotationFileCount: nat
    const eolBytes: nat
    var currentSize: nat
    /** Whether sink_ holds an open file; a null sink_ must not be used. */
    var sinkOpen: bool
    var files: Directory
    /** Every line the directory held at first or was given since. */
    ghost var history: seq<Line>
    ghost var rotations: nat

    ghost predicate Valid()
      reads this
    {
      && 0 < rotationBytes <= UINT64_MAX && rotationFileCount > 0 && eolBytes > 0
      && IsSuffix(Stream(files, rotationFileCount), history)
      && (sinkOpen ==> 0 in files && currentSize == Bytes(files[0], eolBytes))
    }

    ghost predicate Tidy()
      reads this
    {
      sinkOpen && TidyDirectory(files, history, rotations, rotationFileCount, rotationBytes, eolBytes)
    }

    /** The directory has no active file yet: the source throws when it does. */
    constructor (rotationBytes: nat, rotationFileCount: nat, eolBytes: nat, directory: Directory)
      requires 0 < rotationBytes <= UINT64_MAX && rotationFileCount > 0 && eolBytes > 0
      requires 0 !in directory
      ensures Valid() && sinkOpen && rotations == 0
      ensures this.rotationBytes == rotationBytes && this.rotationFileCount == rotationFileCount
      ensures this.eolBytes == eolBytes
      ensures files == directory[0 := []] && history == Stream(directory, rotationFileCount)
      ensures directory == map[] ==> Tidy()
    {
      this.rotationBytes, this.rotationFileCount, this.eolBytes := rotationBytes, rotationFileCount, eolBytes;
      currentSize, sinkOpen, files := 0, true, directory[0 := []];
      history, rotations := Stream(directory, rotationFileCount), 0;
      new;
      BackupsDependOnTheirSlots(directory, files, rotationFileCount);
    }

    /** The active file holds lines, and with one more they would be too long for one file. */
    ghost predicate NeedsRotation(payload: Line)
      reads this
      requires 0 in files
    {
      files[0] != [] && Bytes(files[0] + [payload], eolBytes) > rotationBytes
    }

    /** Writes one line, rotating first when it would overfill the active file. `ok` is false when a call threw. */
    method Write(payload: Line, budget: nat) returns (ok: bool)
      requires Valid() && sinkOpen
      modifies this
      ensures Valid()
      ensures history == if ok then old(history) + [payload] else old(history)
      ensures ok ==> sinkOpen
      ensures budget >= MostCalls(rotationFileCount) && |payload| + eolBytes <= UINT64_MAX ==> ok
      ensures ok && !old(NeedsRotation(payload)) ==>
        files == old(files)[0 := old(files)[0] + [payload]] && rotations == old(rotations)
      ensures ok && old(NeedsRotation(payload)) ==>
        && rotations == old(rotations) + 1
        && 0 in files && files[0] == [payload] && IsRotated(old(files), files[0 := []], rotationFileCount)
      ensures ok && old(Tidy()) ==> Tidy()
    {
      if |payload| > UINT64_MAX - eolBytes {
        return false;
      }
      var lineSize := |payload| + eolBytes;
      var left := budget;
      EmptyOrPositive(files[0], eolBytes);
      BytesAfterAppend(files[0], payload, eolBytes);
      if currentSize > 0 && (lineSize > rotationBytes || currentSize > rotationBytes - lineSize) {
        ok, left := RotateOnce(left);
        if !ok {
          return;
        }
      }
      if left == 0 {
        return false;
      }
      EmptiedAgain(files, payload);
      AppendLine(payload, lineSize);
      ok := true;
    }

    /** Hands the line to the open sink. */
    method AppendLine(payload: Line, lineSize: nat)
      requires Valid() && sinkOpen && lineSize == |payload| + eolBytes <= UINT64_MAX
      requires currentSize == 0 || currentSize + lineSize <= rotationBytes
      modifies this`files, this`history, this`currentSize
      ensures Valid() && history == old(history) + [payload]
      ensures files == old(files)[0 := old(files)[0] + [payload]]
      ensures old(Tidy()) ==> Tidy()
    {
      ghost var before, wasTidy := files, Tidy();
      assert before[0] == [] || Bytes(before[0], eolBytes) + lineSize <= rotationBytes by {
        EmptyOrPositive(before[0], eolBytes);
      }
      files := files[0 := files[0] + [payload]];
      history := history + [payload];
      currentSize := if currentSize > UINT64_MAX - lineSize then UINT64_MAX else currentSize + lineSize;
      BytesAfterAppend(before[0], payload, eolBytes);
      AppendToActive(before, rotationFileCount, payload);
      SuffixAppend(Stream(before, rotationFileCount), old(history), payload);
      if wasTidy {
        TidyAfterAppend(before, old(history), rotations, rotationFileCount, payload, rotationBytes, eolBytes);
      }
    }

    method Flush(budget: nat) returns (ok: bool)
      requires Valid() && sinkOpen
      ensures ok <==> budget > 0
    {
      ok := budget > 0;
    }

    /** Shifts the files; whatever call throws, the lines left are still the newest ones in order. */
    method RotateOnce(budget: nat) returns (ok: bool, left: nat)
      requires Valid() && sinkOpen
      modifies this`files, this`currentSize, this`sinkOpen, this`rotations
      ensures Valid()
      ensures left <= budget && (if ok then budget <= left + 4 * rotationFileCount + 2 else budget < 4 * rotationFileCount + 2)
      ensures ok ==> sinkOpen && rotations == old(rotations) + 1 && IsRotated(old(files), files, rotationFileCount)
      ensures ok && old(Tidy()) ==> Tidy()
    {
      left := budget;
      ghost var before, wasTidy := files, Tidy();
      if left == 0 {
        return false, left; // flushing the active sink
      }
      left := left - 1;
      sinkOpen := false;
      ok, left := ShiftFiles(left);
      if !ok || left == 0 {
        return false, left;
      }
      left := left - 1;
      ShiftedIsRotated(before, files, rotationFileCount);
      BackupsDependOnTheirSlots(files, files[0 := []], rotationFileCount);
      files := files[0 := []];
      if wasTidy {
        TidyAfterRotation(before, files, history, rotations, rotationFileCount, rotationBytes, eolBytes);
      }
      sinkOpen, currentSize, rotations := true, 0, rotations + 1;
    }

    method ShiftFiles(budget: nat) returns (ok: bool, left: nat)
      requires Valid() && !sinkOpen
      modifies this`files
      ensures Valid()
      ensures left <= budget && (if ok then budget <= left + 4 * rotationFileCount else budget < 4 * rotationFileCount)
      ensures ok ==> ShiftedAbove(old(files), files, rotationFileCount, 0)
      ensures rotationFileCount !in old(files) ==>
        Stream(files, rotationFileCount) == old(Stream(files, rotationFileCount))
    {
      left := budget;
      var index := rotationFileCount;
      while index > 0
        invariant 0 <= index <= rotationFileCount && left <= budget <= left + 4 * (rotationFileCount - index)
        invariant IsSuffix(Stream(files, rotationFileCount), history)
        invariant ShiftedAbove(old(files), files, rotationFileCount, index)
        invariant rotationFileCount !in old(files) ==>
          Stream(files, rotationFileCount) == old(Stream(files, rotationFileCount))
      {
        var source, target := index - 1, index;
        if left == 0 {
          return false, left;
        }
        left := left - 1;
        if source !in files {
          SkipShifts(old(files), files, rotationFileCount, index);
          index := index - 1;
          continue;
        }
        if left == 0 {
          return false, left;
        }
        left := left - 1;
        RenameShifts(old(files), files, rotationFileCount, index);
        if target in files {
          if left == 0 {
            return false, left;
          }
          left := left - 1;
          RemoveOldestDropsFront(files, rotationFileCount);
          SuffixTransitive(Stream(files - {target}, rotationFileCount), Stream(files, rotationFileCount), history);
          files := files - {target};
        } else {
          assert files - {target} == files;
        }
        if left == 0 {
          return false, left;
        }
        left := left - 1;
        RenameKeepsStream(files, source, rotationFileCount);
        files := files[target := files[source]] - {source};
        index := index - 1;
      }
      ok := true;
    }
  }
}
