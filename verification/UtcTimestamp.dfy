/** Canonical UTC timestamps and run identifiers: exactly the texts printed from a valid moment. */
module UtcTimestamp {
  import opened Decimals

  // ---------- The calendar ----------

  predicate IsLeapYear(year: nat) {
    year % 4 == 0 && (year % 100 != 0 || year % 400 == 0)
  }

  function DaysInMonth(year: nat, month: nat): nat
    requires 1 <= month <= 12
  {
    if month == 2 && IsLeapYear(year) then 29 else [31, 28, 31, 30, 31, 30, 31, 31, 30, 31, 30, 31][month - 1]
  }

  /** Days of a year before a month. */
  function DaysBeforeMonth(year: nat, month: nat): nat
    requires 1 <= month <= 13
  {
    if month == 1 then 0 else DaysBeforeMonth(year, month - 1) + DaysInMonth(year, month - 1)
  }

  /** Days before a year of the Gregorian calendar: one leap day in 4 years, none in 100, one in 400. */
  function DaysBeforeYear(year: nat): nat
    requires year >= 1
  {
    365 * (year - 1) + (year - 1) / 4 - (year - 1) / 100 + (year - 1) / 400
  }

  lemma MonthsOfYear(year: nat)
    ensures DaysBeforeMonth(year, 13) == if IsLeapYear(year) then 366 else 365
  {
    var february := DaysInMonth(year, 2);
    assert DaysBeforeMonth(year, 2) == 31;
    assert DaysBeforeMonth(year, 3) == 31 + february;
    assert DaysBeforeMonth(year, 4) == 62 + february;
    assert DaysBeforeMonth(year, 5) == 92 + february;
    assert DaysBeforeMonth(year, 6) == 123 + february;
    assert DaysBeforeMonth(year, 7) == 153 + february;
    assert DaysBeforeMonth(year, 8) == 184 + february;
    assert DaysBeforeMonth(year, 9) == 215 + february;
    assert DaysBeforeMonth(year, 10) == 245 + february;
    assert DaysBeforeMonth(year, 11) == 276 + february;
    assert DaysBeforeMonth(year, 12) == 306 + february;
  }

  lemma QuotientSteps(n: nat)
    requires n >= 1
    ensures n / 4 == (n - 1) / 4 + (if n % 4 == 0 then 1 else 0)
    ensures n / 100 == (n - 1) / 100 + (if n % 100 == 0 then 1 else 0)
    ensures n / 400 == (n - 1) / 400 + (if n % 400 == 0 then 1 else 0)
  {
  }

  lemma HundredsAreFours(n: nat)
    ensures n % 100 == 0 ==> n % 4 == 0
    ensures n % 400 == 0 ==> n % 100 == 0
  {
    var hundreds, centuries := n / 100, n / 400;
    assert n % 100 == 0 ==> n == 4 * (25 * hundreds);
    assert n % 400 == 0 ==> n == 100 * (4 * centuries);
  }

  /** The month table gives every year the length the Gregorian rule does. */
  lemma YearsHaveTheirDays(year: nat)
    requires year >= 1
    ensures DaysBeforeYear(year + 1) == DaysBeforeYear(year) + DaysBeforeMonth(year, 13)
  {
    MonthsOfYear(year);
    QuotientSteps(year);
    HundredsAreFours(year);
  }

  // ---------- Moments ----------

  datatype Moment = Moment(
    year: nat, month: nat, day: nat, hour: nat, minute: nat, second: nat, millisecond: nat)
  {
    predicate Valid() {
      && 1 <= year <= 9999 && 1 <= month <= 12 && 1 <= day <= DaysInMonth(year, month)
      && hour <= 23 && minute <= 59 && second <= 59 && millisecond <= 999
    }
  }

  function Date(m: Moment): (text: string)
    ensures |text| == 8
  {
    FixedDecimal(m.year, 4) + FixedDecimal(m.month, 2) + FixedDecimal(m.day, 2)
  }

  function Time(m: Moment): (text: string)
    ensures |text| == 6
  {
    FixedDecimal(m.hour, 2) + FixedDecimal(m.minute, 2) + FixedDecimal(m.second, 2)
  }

  /** The canonical form, as in 20260102T030405.006Z. */
  function Printed(m: Moment): (text: string)
    ensures |text| == 20
  {
    Date(m) + ['T'] + Time(m) + ['.'] + FixedDecimal(m.millisecond, 3) + ['Z']
  }

  ghost predicate IsCanonical(text: string) {
    exists m: Moment :: m.Valid() && Printed(m) == text
  }

  // ---------- Reading ----------

  predicate HasShape(text: string) {
    && |text| == 20 && AllDigits(text[0..8]) && text[8] == 'T' && AllDigits(text[9..15]) && text[15] == '.'
    && AllDigits(text[16..19]) && text[19] == 'Z'
  }

  function DigitsAt(text: string, offset: nat, count: nat): nat
    requires offset + count <= |text| && AllDigits(text[offset..offset + count])
  {
    DecimalValue(text[offset..offset + count])
  }

  lemma PartsAreDigits(text: string, offset: nat, count: nat, from: nat, n: nat)
    requires offset + count <= |text| && AllDigits(text[offset..offset + count])
    requires offset <= from && from + n <= offset + count
    ensures AllDigits(text[from..from + n])
  {
    var whole, part := text[offset..offset + count], text[from..from + n];
    forall k | 0 <= k < |part|
      ensures IsDigit(part[k])
    {
      assert part[k] == whole[from - offset + k];
    }
  }

  lemma ShapeHasDigits(text: string)
    requires HasShape(text)
    ensures AllDigits(text[0..4]) && AllDigits(text[4..6]) && AllDigits(text[6..8])
    ensures AllDigits(text[9..11]) && AllDigits(text[11..13]) && AllDigits(text[13..15])
  {
    PartsAreDigits(text, 0, 8, 0, 4);
    PartsAreDigits(text, 0, 8, 4, 2);
    PartsAreDigits(text, 0, 8, 6, 2);
    PartsAreDigits(text, 9, 6, 9, 2);
    PartsAreDigits(text, 9, 6, 11, 2);
    PartsAreDigits(text, 9, 6, 13, 2);
  }

  function Read(text: string): Moment
    requires HasShape(text)
  {
    ShapeHasDigits(text);
    Moment(DigitsAt(text, 0, 4), DigitsAt(text, 4, 2), DigitsAt(text, 6, 2), DigitsAt(text, 9, 2),
           DigitsAt(text, 11, 2), DigitsAt(text, 13, 2), DigitsAt(text, 16, 3))
  }

  lemma Tens()
    ensures Pow10(2) == 100 && Pow10(3) == 1000 && Pow10(4) == 10_000
  {
    assert Pow10(2) == 10 * Pow10(1);
    assert Pow10(4) == 10 * Pow10(3);
  }

  lemma SliceOfSlice(text: string, a: nat, b: nat, i: nat, j: nat)
    requires a <= b <= |text| && i <= j <= b - a
    ensures text[a..b][i..j] == text[a + i..a + j]
  {
    var whole, part := text[a..b], text[a + i..a + j];
    assert forall k | 0 <= k < |part| :: whole[i..j][k] == whole[i + k] == part[k];
  }

  lemma DateIsRead(m: Moment, text: string)
    requires m.Valid() && |text| == 20 && text[0..8] == Date(m)
    ensures text[0..4] == FixedDecimal(m.year, 4) && text[4..6] == FixedDecimal(m.month, 2)
    ensures text[6..8] == FixedDecimal(m.day, 2)
  {
    SliceOfSlice(text, 0, 8, 0, 4);
    SliceOfSlice(text, 0, 8, 4, 6);
    SliceOfSlice(text, 0, 8, 6, 8);
  }

  lemma TimeIsRead(m: Moment, text: string)
    requires m.Valid() && |text| == 20 && text[9..15] == Time(m)
    ensures text[9..11] == FixedDecimal(m.hour, 2) && text[11..13] == FixedDecimal(m.minute, 2)
    ensures text[13..15] == FixedDecimal(m.second, 2)
  {
    SliceOfSlice(text, 9, 15, 0, 2);
    SliceOfSlice(text, 9, 15, 2, 4);
    SliceOfSlice(text, 9, 15, 4, 6);
  }

  lemma PrintedHasShape(m: Moment)
    ensures HasShape(Printed(m))
    ensures Printed(m)[0..8] == Date(m) && Printed(m)[9..15] == Time(m)
    ensures Printed(m)[16..19] == FixedDecimal(m.millisecond, 3)
  {
    var text := Printed(m);
    assert text[0..8] == Date(m) && text[9..15] == Time(m) && text[16..19] == FixedDecimal(m.millisecond, 3);
  }

  /** Every valid moment is read back from its text, so the text determines it. */
  lemma ReadOfPrinted(m: Moment)
    requires m.Valid()
    ensures HasShape(Printed(m)) && Read(Printed(m)) == m
  {
    var text := Printed(m);
    PrintedHasShape(m);
    ShapeHasDigits(text);
    DateIsRead(m, text);
    TimeIsRead(m, text);
    Tens();
    FixedIsReadBack(m.year, 4);
    FixedIsReadBack(m.month, 2);
    FixedIsReadBack(m.day, 2);
    FixedIsReadBack(m.hour, 2);
    FixedIsReadBack(m.minute, 2);
    FixedIsReadBack(m.second, 2);
    FixedIsReadBack(m.millisecond, 3);
  }

  lemma DateIsPrinted(text: string)
    requires HasShape(text)
    ensures Date(Read(text)) == text[0..8] && Time(Read(text)) == text[9..15]
    ensures FixedDecimal(Read(text).millisecond, 3) == text[16..19]
  {
    ShapeHasDigits(text);
    DigitsAreFixed(text[0..4]);
    DigitsAreFixed(text[4..6]);
    DigitsAreFixed(text[6..8]);
    DigitsAreFixed(text[9..11]);
    DigitsAreFixed(text[11..13]);
    DigitsAreFixed(text[13..15]);
    DigitsAreFixed(text[16..19]);
    assert text[0..8] == text[0..4] + text[4..6] + text[6..8];
    assert text[9..15] == text[9..11] + text[11..13] + text[13..15];
  }

  lemma PrintedOfRead(text: string)
    requires HasShape(text)
    ensures Printed(Read(text)) == text
  {
    DateIsPrinted(text);
    assert text == text[0..8] + [text[8]] + text[9..15] + [text[15]] + text[16..19] + [text[19]];
  }

  /** Canonical texts are those of the right shape whose fields are a moment. */
  lemma CanonicalIff(text: string)
    ensures IsCanonical(text) <==> HasShape(text) && Read(text).Valid()
  {
    if HasShape(text) {
      PrintedOfRead(text);
    }
    if IsCanonical(text) {
      var m: Moment :| m.Valid() && Printed(m) == text;
      ReadOfPrinted(m);
    }
  }

  // ---------- The recognisers ----------

  method ContainsOnlyDecimalDigits(value: string) returns (only: bool)
    ensures only <==> AllDigits(value)
  {
    for i := 0 to |value|
      invariant forall k | 0 <= k < i :: IsDigit(value[k])
    {
      if !IsDigit(value[i]) {
        return false;
      }
    }
    return true;
  }

  method DecimalNumber(value: string) returns (result: nat)
    requires AllDigits(value)
    ensures result == DecimalValue(value)
  {
    result := 0;
    for i := 0 to |value|
      invariant result == DecimalValue(value[..i])
    {
      assert value[..i + 1][..i] == value[..i];
      result := result * 10 + DigitValue(value[i]);
    }
    assert value[..|value|] == value;
  }

  /** Accepts exactly the texts printed from a valid moment. */
  method MatchesCanonicalUtcTimestamp(timestamp: string) returns (matches: bool)
    ensures matches <==> IsCanonical(timestamp)
  {
    CanonicalIff(timestamp);
    if |timestamp| != 20 {
      return false;
    }
    var date := ContainsOnlyDecimalDigits(timestamp[0..8]);
    var time := ContainsOnlyDecimalDigits(timestamp[9..15]);
    var milliseconds := ContainsOnlyDecimalDigits(timestamp[16..19]);
    if !date || timestamp[8] != 'T' || !time || timestamp[15] != '.' || !milliseconds || timestamp[19] != 'Z' {
      return false;
    }
    ShapeHasDigits(timestamp);
    MillisecondsFit(timestamp);
    var year := DecimalNumber(timestamp[0..4]);
    var month := DecimalNumber(timestamp[4..6]);
    var day := DecimalNumber(timestamp[6..8]);
    var hour := DecimalNumber(timestamp[9..11]);
    var minute := DecimalNumber(timestamp[11..13]);
    var second := DecimalNumber(timestamp[13..15]);
    if year == 0 || month == 0 || month > 12 || day == 0 {
      return false;
    }
    matches := day <= DaysInMonth(year, month) && hour <= 23 && minute <= 59 && second <= 59;
  }

  lemma MillisecondsFit(text: string)
    requires HasShape(text)
    ensures Read(text).millisecond <= 999 && Read(text).year <= 9999
  {
    Tens();
    ShapeHasDigits(text);
    DigitsAreFixed(text[16..19]);
    DigitsAreFixed(text[0..4]);
  }

  // ---------- Run identifiers ----------

  predicate IsHexDigit(c: char) {
    IsDigit(c) || 'a' <= c <= 'f' || 'A' <= c <= 'F'
  }

  predicate IsUuidHyphenOffset(offset: nat) {
    offset == 8 || offset == 13 || offset == 18 || offset == 23
  }

  predicate IsUuid(text: string) {
    |text| == 36 && forall k | 0 <= k < 36 :: if IsUuidHyphenOffset(k) then text[k] == '-' else IsHexDigit(text[k])
  }

  /** A run identifier names the moment it was made and a UUID. */
  ghost predicate IsRunId(text: string) {
    exists timestamp: string, uuid: string ::
      IsCanonical(timestamp) && IsUuid(uuid) && text == "run-" + timestamp + "-" + uuid
  }

  predicate HasRunIdParts(text: string) {
    |text| == 61 && text[0..4] == "run-" && text[24] == '-' && IsUuid(text[25..61])
  }

  lemma PartsOfRunId(timestamp: string, uuid: string)
    requires |timestamp| == 20 && IsUuid(uuid)
    ensures var text := "run-" + timestamp + "-" + uuid; HasRunIdParts(text) && text[4..24] == timestamp
  {
    var text := "run-" + timestamp + "-" + uuid;
    assert text[0..4] == "run-";
    assert text[25..61] == uuid;
  }

  lemma RunIdOfParts(text: string)
    requires HasRunIdParts(text)
    ensures text == "run-" + text[4..24] + "-" + text[25..61]
  {
    assert text == text[0..4] + text[4..24] + [text[24]] + text[25..61];
  }

  lemma RunIdIff(text: string)
    ensures IsRunId(text) <==> HasRunIdParts(text) && IsCanonical(text[4..24])
  {
    if IsRunId(text) {
      var timestamp: string, uuid: string :|
        IsCanonical(timestamp) && IsUuid(uuid) && text == "run-" + timestamp + "-" + uuid;
      CanonicalIff(timestamp);
      PartsOfRunId(timestamp, uuid);
    }
    if HasRunIdParts(text) {
      RunIdOfParts(text);
    }
  }

  method MatchesCanonicalRunId(runId: string) returns (matches: bool)
    ensures matches <==> IsRunId(runId)
  {
    RunIdIff(runId);
    if |runId| != 61 || runId[0..4] != "run-" {
      return false;
    }
    var timestamp := MatchesCanonicalUtcTimestamp(runId[4..24]);
    if !timestamp || runId[24] != '-' {
      return false;
    }
    ghost var uuid := runId[25..61];
    for index := 25 to 61
      invariant forall k | 0 <= k < index - 25 :: if IsUuidHyphenOffset(k) then uuid[k] == '-' else IsHexDigit(uuid[k])
    {
      assert runId[index] == uuid[index - 25];
      if IsUuidHyphenOffset(index - 25) {
        if runId[index] != '-' {
          return false;
        }
      } else if !IsHexDigit(runId[index]) {
        return false;
      }
    }
    return true;
  }
}
