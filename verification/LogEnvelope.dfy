/**
 The record, its transport envelope and the payload document between producer and consumer.
 A JSON document is a map from property names to values; printing and parsing it are taken as inverse.
 */
module LogEnvelope {
  import opened Prelude
  import opened Utf8

  type Text = seq<byte>

  const UNDERSCORE: byte := 0x5F
  const SEVERITY_CRITICAL: byte := 4
  const MAXIMUM_MESSAGE_BYTES: nat := 1024

  /** system_clock counts 100-nanosecond ticks. */
  const TICKS_PER_MILLISECOND: nat := 10_000

  datatype Context = Context(
    serverTick: Option<uint64>, epoch: Option<uint64>, worldSessionKey: Option<uint64>,
    entityId: Option<uint32>, entityGeneration: Option<uint32>,
    operation: Option<Text>, result: Option<Text>, error: Option<Text>,
    nativeErrorCode: Option<uint32>)

  datatype Record = Record(severity: byte, component: Text, event: Text, message: Option<Text>, context: Context)

  datatype Envelope = Envelope(timestampTicks: int, producerSteadyNs: uint64, record: Record, messageTruncated: bool)

  // ---------- Validity ----------

  predicate IsDecimalDigit(value: byte) {
    0x30 <= value <= 0x39
  }

  predicate IsLowercaseLetter(value: byte) {
    0x61 <= value <= 0x7A
  }

  /** Lower-case words and digits joined by single underscores, starting with a letter. */
  predicate StableToken(value: Text) {
    && value != [] && IsLowercaseLetter(value[0]) && value[|value| - 1] != UNDERSCORE
    && (forall i | 0 <= i < |value| :: IsLowercaseLetter(value[i]) || IsDecimalDigit(value[i]) || value[i] == UNDERSCORE)
    && (forall i | 0 < i < |value| :: value[i] == UNDERSCORE ==> value[i - 1] != UNDERSCORE)
  }

  predicate OptionalToken(value: Option<Text>) {
    value.Some? ==> StableToken(value.value)
  }

  predicate ContextTokens(context: Context) {
    OptionalToken(context.operation) && OptionalToken(context.result) && OptionalToken(context.error)
  }

  ghost predicate ValidRecord(record: Record) {
    && record.severity <= SEVERITY_CRITICAL
    && StableToken(record.component) && StableToken(record.event)
    && (record.message.Some? ==> record.message.value != [] && WellFormed(record.message.value))
    && ContextTokens(record.context)
    && record.context.entityId.Some? == record.context.entityGeneration.Some?
  }

  method IsStableToken(value: Text) returns (stable: bool)
    ensures stable <==> StableToken(value)
  {
    if value == [] || !IsLowercaseLetter(value[0]) || value[|value| - 1] == UNDERSCORE {
      return false;
    }
    var previousWasUnderscore := false;
    for i := 0 to |value|
      invariant previousWasUnderscore <==> i > 0 && value[i - 1] == UNDERSCORE
      invariant forall j | 0 <= j < i ::
        IsLowercaseLetter(value[j]) || IsDecimalDigit(value[j]) || value[j] == UNDERSCORE
      invariant forall j | 0 < j < i :: value[j] == UNDERSCORE ==> value[j - 1] != UNDERSCORE
    {
      if value[i] == UNDERSCORE {
        if previousWasUnderscore {
          return false;
        }
        previousWasUnderscore := true;
        continue;
      }
      if !IsLowercaseLetter(value[i]) && !IsDecimalDigit(value[i]) {
        return false;
      }
      previousWasUnderscore := false;
    }
    return true;
  }

  method IsValidOptionalToken(value: Option<Text>) returns (valid: bool)
    ensures valid <==> OptionalToken(value)
  {
    if value.None? {
      return true;
    }
    valid := IsStableToken(value.value);
  }

  method IsValidRecord(record: Record) returns (valid: bool)
    ensures valid <==> ValidRecord(record)
  {
    var component := IsStableToken(record.component);
    var event := IsStableToken(record.event);
    var message := true;
    if record.message.Some? {
      message := IsValidUtf8(record.message.value);
      message := record.message.value != [] && message;
    }
    var operation := IsValidOptionalToken(record.context.operation);
    var result := IsValidOptionalToken(record.context.result);
    var error := IsValidOptionalToken(record.context.error);
    valid := record.severity <= SEVERITY_CRITICAL && component && event && message && operation && result && error
             && record.context.entityId.Some? == record.context.entityGeneration.Some?;
  }

  // ---------- Envelope creation ----------

  /** What the producer puts in an envelope: the record itself, its message cut to the longest prefix that fits. */
  ghost predicate IsEnvelopeOf(e: Envelope, record: Record, timestampTicks: int, steadyNs: uint64) {
    && e.timestampTicks == timestampTicks && e.producerSteadyNs == steadyNs
    && e.record == record.(message := e.record.message)
    && e.record.message.Some? == record.message.Some?
    && (record.message.Some? ==>
          var size := |e.record.message.value|;
          && size <= |record.message.value| && e.record.message.value == record.message.value[..size]
          && IsLongestPrefix(record.message.value, MAXIMUM_MESSAGE_BYTES, size))
    && (e.messageTruncated <==> record.message.Some? && |record.message.value| > MAXIMUM_MESSAGE_BYTES)
  }

  method TryCreate(record: Record, timestampTicks: int, steadyNs: uint64) returns (output: Option<Envelope>)
    ensures output.Some? <==> ValidRecord(record)
    ensures output.Some? ==> IsEnvelopeOf(output.value, record, timestampTicks, steadyNs)
  {
    var valid := IsValidRecord(record);
    if !valid {
      return None;
    }
    var prepared := Envelope(timestampTicks, steadyNs, record, false);
    if prepared.record.message.Some? && |prepared.record.message.value| > MAXIMUM_MESSAGE_BYTES {
      var truncatedSize := Utf8PrefixSizeWithinLimit(prepared.record.message.value, MAXIMUM_MESSAGE_BYTES);
      prepared := prepared.(record := prepared.record.(message := Some(prepared.record.message.value[..truncatedSize])));
      prepared := prepared.(messageTruncated := true);
    } else if record.message.Some? {
      assert record.message.value[..|record.message.value|] == record.message.value;
    }
    return Some(prepared);
  }

  // ---------- Payload document ----------

  datatype Json = JText(text: Text) | JNumber(number: int) | JBool(flag: bool) | JOther

  /** A JSON object by its property slots, None when absent; properties the decoder never looks up are not kept. */
  datatype Document = Document(
    schema: Option<Json>, version: Option<Json>, timestampUnixMilliseconds: Option<Json>,
    producerSteadyNs: Option<Json>, severity: Option<Json>, component: Option<Json>, event: Option<Json>,
    message: Option<Json>, messageTruncated: Option<Json>, serverTick: Option<Json>, epoch: Option<Json>,
    worldSessionKey: Option<Json>, entityId: Option<Json>, entityGeneration: Option<Json>, operation: Option<Json>,
    result: Option<Json>, error: Option<Json>, nativeErrorCode: Option<Json>)

  const EMPTY_DOCUMENT := Document(
    None, None, None, None, None, None, None, None, None, None, None, None, None, None, None, None, None, None)

  const SCHEMA_NAME: string := "ps.application.log.envelope"
  const SCHEMA_VERSION: nat := 1

  function Ascii(s: string): Text {
    seq(|s|, i requires 0 <= i < |s| => s[i] as int % 0x80)
  }

  /** Integer division that truncates toward zero, as std::chrono::duration_cast does. */
  function TruncatedQuotient(a: int, b: nat): int
    requires b > 0
  {
    if a >= 0 then a / b else -(-a / b)
  }

  function ToMilliseconds(e: Envelope): Envelope {
    e.(timestampTicks := TruncatedQuotient(e.timestampTicks, TICKS_PER_MILLISECOND) * TICKS_PER_MILLISECOND)
  }

  /** A time keeps its whole milliseconds and moves toward zero, by less than one. */
  lemma CutTowardZero(e: Envelope)
    ensures var cut, ticks := ToMilliseconds(e).timestampTicks, e.timestampTicks;
      && cut % 10_000 == 0
      && (ticks >= 0 ==> 0 <= ticks - cut < 10_000 && cut >= 0)
      && (ticks <= 0 ==> 0 <= cut - ticks < 10_000 && cut <= 0)
  {
    var ticks := e.timestampTicks;
    var size := if ticks >= 0 then ticks else -ticks;
    assert size == size / 10_000 * 10_000 + size % 10_000;
    assert (size / 10_000 * 10_000) % 10_000 == 0 && (-(size / 10_000) * 10_000) % 10_000 == 0;
  }

  /** get<std::int64_t>: a number outside the range wraps. */
  function WrapInt64(n: int): int64 {
    var low := n % (UINT64_MAX + 1);
    if low <= INT64_MAX then low else low - UINT64_MAX - 1
  }

  /** get<std::string>: None stands for the exception on an absent or mistyped property. */
  function GetText(slot: Option<Json>): Option<Text> {
    if slot.Some? && slot.value.JText? then Some(slot.value.text) else None
  }

  /** get<std::uint64_t> and get<std::uint32_t>: the number modulo the word size. */
  function GetUnsigned(slot: Option<Json>, maximum: nat): (r: Option<nat>)
    ensures r.Some? ==> r.value <= maximum
  {
    if slot.Some? && slot.value.JNumber? then Some(slot.value.number % (maximum + 1)) else None
  }

  /** The slot spells an optional property: absent when None, of the right type when Some. */
  predicate SpellsText(slot: Option<Json>, value: Option<Text>) {
    if slot.Some? then value.Some? && GetText(slot) == value else value.None?
  }

  predicate SpellsUnsigned(slot: Option<Json>, maximum: nat, value: Option<int>) {
    if slot.Some? then value.Some? && GetUnsigned(slot, maximum) == value else value.None?
  }

  /** The payload schema: which envelope a document describes. */
  predicate Describes(document: Document, e: Envelope) {
    && GetText(document.schema) == Some(Ascii(SCHEMA_NAME))
    && GetUnsigned(document.version, UINT64_MAX) == Some(SCHEMA_VERSION)
    && document.timestampUnixMilliseconds.Some? && document.timestampUnixMilliseconds.value.JNumber?
    && e.timestampTicks == WrapInt64(document.timestampUnixMilliseconds.value.number) * TICKS_PER_MILLISECOND
    && GetUnsigned(document.producerSteadyNs, UINT64_MAX) == Some(e.producerSteadyNs)
    && GetUnsigned(document.severity, UINT64_MAX) == Some(e.record.severity)
    && GetText(document.component) == Some(e.record.component)
    && GetText(document.event) == Some(e.record.event)
    && SpellsText(document.message, e.record.message)
    && document.messageTruncated == Some(JBool(e.messageTruncated))
    && DescribesContext(document, e.record.context)
  }

  predicate DescribesContext(document: Document, context: Context) {
    && SpellsUnsigned(document.serverTick, UINT64_MAX, context.serverTick)
    && SpellsUnsigned(document.epoch, UINT64_MAX, context.epoch)
    && SpellsUnsigned(document.worldSessionKey, UINT64_MAX, context.worldSessionKey)
    && SpellsUnsigned(document.entityId, UINT32_MAX, context.entityId)
    && SpellsUnsigned(document.entityGeneration, UINT32_MAX, context.entityGeneration)
    && SpellsText(document.operation, context.operation)
    && SpellsText(document.result, context.result)
    && SpellsText(document.error, context.error)
    && SpellsUnsigned(document.nativeErrorCode, UINT32_MAX, context.nativeErrorCode)
  }

  /** What the consumer insists on beyond the schema. */
  ghost predicate Acceptable(e: Envelope) {
    && ValidRecord(e.record)
    && (e.record.message.Some? ==> |e.record.message.value| <= MAXIMUM_MESSAGE_BYTES)
    && (e.messageTruncated ==> e.record.message.Some?)
  }

  /** The printer throws on a text that is not well-formed UTF-8. */
  ghost predicate PrintableSlot(slot: Option<Json>) {
    slot.Some? && slot.value.JText? ==> WellFormed(slot.value.text)
  }

  ghost predicate Printable(document: Document) {
    && PrintableSlot(document.schema) && PrintableSlot(document.component) && PrintableSlot(document.event)
    && PrintableSlot(document.message) && PrintableSlot(document.operation) && PrintableSlot(document.result)
    && PrintableSlot(document.error)
  }

  /** ASCII text is well-formed, so tokens never stop the printer. */
  lemma {:induction false} AsciiIsWellFormed(s: Text)
    requires forall i | 0 <= i < |s| :: s[i] < 0x80
    ensures WellFormed(s)
  {
    EmptyIsWellFormed();
    if s != [] {
      AsciiIsWellFormed(s[1..]);
      StepPreservesWellFormed(s);
    }
  }

  lemma OptionalTokenIsPrintable(token: Option<Text>)
    requires OptionalToken(token)
    ensures token.Some? ==> WellFormed(token.value)
  {
    if token.Some? {
      AsciiIsWellFormed(token.value);
    }
  }

  /** No valid record makes the printer throw. */
  lemma ValidRecordIsPrintable(record: Record)
    requires ValidRecord(record)
    ensures WellFormed(record.component) && WellFormed(record.event) && WellFormed(Ascii(SCHEMA_NAME))
    ensures record.context.operation.Some? ==> WellFormed(record.context.operation.value)
    ensures record.context.result.Some? ==> WellFormed(record.context.result.value)
    ensures record.context.error.Some? ==> WellFormed(record.context.error.value)
  {
    AsciiIsWellFormed(record.component);
    AsciiIsWellFormed(record.event);
    AsciiIsWellFormed(Ascii(SCHEMA_NAME));
    OptionalTokenIsPrintable(record.context.operation);
    OptionalTokenIsPrintable(record.context.result);
    OptionalTokenIsPrintable(record.context.error);
  }

  function OptionalTextSlot(value: Option<Text>): Option<Json> {
    if value.Some? then Some(JText(value.value)) else None
  }

  function OptionalNumberSlot(value: Option<int>): Option<Json> {
    if value.Some? then Some(JNumber(value.value)) else None
  }

  /** The clock is within the range of its 64-bit tick count. */
  predicate InClockRange(timestampTicks: int) {
    -INT64_MAX - 1 <= timestampTicks <= INT64_MAX
  }

  /** The encoder writes a document that describes the envelope with its timestamp cut to milliseconds. */
  method Encode(e: Envelope) returns (document: Document)
    requires InClockRange(e.timestampTicks)
    ensures Describes(document, ToMilliseconds(e))
    ensures ValidRecord(e.record) ==> Printable(document)
  {
    var context := e.record.context;
    document := EMPTY_DOCUMENT;
    document := document.(schema := Some(JText(Ascii(SCHEMA_NAME))));
    document := document.(version := Some(JNumber(SCHEMA_VERSION)));
    document := document.(timestampUnixMilliseconds :=
      Some(JNumber(TruncatedQuotient(e.timestampTicks, TICKS_PER_MILLISECOND))));
    document := document.(producerSteadyNs := Some(JNumber(e.producerSteadyNs)));
    document := document.(severity := Some(JNumber(e.record.severity)));
    document := document.(component := Some(JText(e.record.component)));
    document := document.(event := Some(JText(e.record.event)));
    document := document.(message := OptionalTextSlot(e.record.message));
    document := document.(messageTruncated := Some(JBool(e.messageTruncated)));
    document := document.(serverTick := OptionalNumberSlot(context.serverTick));
    document := document.(epoch := OptionalNumberSlot(context.epoch));
    document := document.(worldSessionKey := OptionalNumberSlot(context.worldSessionKey));
    document := document.(entityId := OptionalNumberSlot(context.entityId));
    document := document.(entityGeneration := OptionalNumberSlot(context.entityGeneration));
    document := document.(operation := OptionalTextSlot(context.operation));
    document := document.(result := OptionalTextSlot(context.result));
    document := document.(error := OptionalTextSlot(context.error));
    document := document.(nativeErrorCode := OptionalNumberSlot(context.nativeErrorCode));
    if ValidRecord(e.record) {
      ValidRecordIsPrintable(e.record);
    }
  }

  /** A present property of the wrong type throws; an absent one reads as None. */
  method ReadOptionalText(slot: Option<Json>) returns (ok: bool, value: Option<Text>)
    ensures ok <==> slot.Some? ==> slot.value.JText?
    ensures ok ==> SpellsText(slot, value)
  {
    if slot.None? {
      return true, None;
    }
    value := GetText(slot);
    ok := value.Some?;
  }

  method ReadOptionalUnsigned(slot: Option<Json>, maximum: nat) returns (ok: bool, value: Option<nat>)
    ensures ok <==> slot.Some? ==> slot.value.JNumber?
    ensures value.Some? ==> value.value <= maximum
    ensures ok ==> SpellsUnsigned(slot, maximum, value)
  {
    if slot.None? {
      return true, None;
    }
    value := GetUnsigned(slot, maximum);
    ok := value.Some?;
  }

  method ReadContext(document: Document) returns (ok: bool, context: Context)
    ensures ok ==> DescribesContext(document, context)
    ensures !ok ==> forall other :: !DescribesContext(document, other)
  {
    context := Context(None, None, None, None, None, None, None, None, None);
    var ok0, serverTick := ReadOptionalUnsigned(document.serverTick, UINT64_MAX);
    var ok1, epoch := ReadOptionalUnsigned(document.epoch, UINT64_MAX);
    var ok2, worldSessionKey := ReadOptionalUnsigned(document.worldSessionKey, UINT64_MAX);
    var ok3, entityId := ReadOptionalUnsigned(document.entityId, UINT32_MAX);
    var ok4, entityGeneration := ReadOptionalUnsigned(document.entityGeneration, UINT32_MAX);
    var ok5, operation := ReadOptionalText(document.operation);
    var ok6, result := ReadOptionalText(document.result);
    var ok7, error := ReadOptionalText(document.error);
    var ok8, nativeErrorCode := ReadOptionalUnsigned(document.nativeErrorCode, UINT32_MAX);
    ok := ok0 && ok1 && ok2 && ok3 && ok4 && ok5 && ok6 && ok7 && ok8;
    if ok {
      context := Context(serverTick, epoch, worldSessionKey, entityId, entityGeneration, operation, result, error,
                         nativeErrorCode);
    }
  }

  /** The payload parsed into a document that describes an acceptable envelope. */
  ghost predicate Decodable(parsed: Option<Document>) {
    parsed.Some? && exists e :: Describes(parsed.value, e) && Acceptable(e)
  }

  /** The decoder accepts exactly the documents that describe an acceptable envelope, and returns that envelope. */
  method TryDecode(parsed: Option<Document>) returns (output: Option<Envelope>)
    ensures output.Some? <==> Decodable(parsed)
    ensures output.Some? ==> Describes(parsed.value, output.value) && Acceptable(output.value)
  {
    if parsed.None? {
      return None;
    }
    var document := parsed.value;
    if GetText(document.schema) != Some(Ascii(SCHEMA_NAME)) ||
       GetUnsigned(document.version, UINT64_MAX) != Some(SCHEMA_VERSION) {
      return None;
    }
    if document.timestampUnixMilliseconds.None? || !document.timestampUnixMilliseconds.value.JNumber? {
      return None;
    }
    var timestamp := WrapInt64(document.timestampUnixMilliseconds.value.number) * TICKS_PER_MILLISECOND;
    var steadyNs := GetUnsigned(document.producerSteadyNs, UINT64_MAX);
    var severity := GetUnsigned(document.severity, UINT64_MAX);
    if steadyNs.None? || severity.None? || severity.value > SEVERITY_CRITICAL {
      return None;
    }
    var component, event := GetText(document.component), GetText(document.event);
    if component.None? || event.None? {
      return None;
    }
    var messageOk, message := ReadOptionalText(document.message);
    if !messageOk || document.messageTruncated.None? || !document.messageTruncated.value.JBool? {
      return None;
    }
    var contextOk, context := ReadContext(document);
    if !contextOk {
      return None;
    }
    var record := Record(severity.value, component.value, event.value, message, context);
    var prepared := Envelope(timestamp, steadyNs.value, record, document.messageTruncated.value.flag);
    var valid := IsValidRecord(record);
    if !valid || (message.Some? && |message.value| > MAXIMUM_MESSAGE_BYTES) ||
       (prepared.messageTruncated && message.None?) {
      DescribedEnvelopeIsUnique(document, prepared);
      return None;
    }
    assert Describes(document, prepared) && Acceptable(prepared);
    return Some(prepared);
  }

  // ---------- Producer to consumer ----------

  /** A document describes at most one envelope. */
  lemma DescribedEnvelopeIsUnique(document: Document, e: Envelope)
    requires Describes(document, e)
    ensures forall other :: Describes(document, other) ==> other == e
  {
  }

  /** Whatever the producer puts in an envelope satisfies the consumer, even after the timestamp lost precision. */
  lemma ProducedIsAcceptable(e: Envelope, record: Record, timestampTicks: int, steadyNs: uint64)
    requires ValidRecord(record) && IsEnvelopeOf(e, record, timestampTicks, steadyNs)
    ensures Acceptable(ToMilliseconds(e))
    ensures record.message.Some? && e.messageTruncated ==>
      |e.record.message.value| >= MAXIMUM_MESSAGE_BYTES - 3
  {
    if record.message.Some? {
      var text := record.message.value;
      var size := |e.record.message.value|;
      if |text| <= MAXIMUM_MESSAGE_BYTES {
        assert text[..|text|] == text;
      } else {
        CutAtLimit(text, MAXIMUM_MESSAGE_BYTES, size);
      }
    }
  }

  lemma CutAtLimit(text: Text, limit: nat, size: nat)
    requires WellFormed(text) && limit < |text| && IsLongestPrefix(text, limit, size)
    ensures limit - 3 <= size
  {
    CharacterStartNearby(text, limit);
    var j :| limit - 3 <= j <= limit && 0 <= j && !IsUtf8ContinuationByte(text[j]);
    WellFormedPrefixes(text, j);
  }

  /** A message that fits is not cut. */
  lemma UncutIsWhole(e: Envelope, record: Record, timestampTicks: int, steadyNs: uint64)
    requires ValidRecord(record) && IsEnvelopeOf(e, record, timestampTicks, steadyNs)
    ensures !e.messageTruncated ==> e.record.message == record.message
  {
    if record.message.Some? && !e.messageTruncated {
      var text := record.message.value;
      assert text[..|text|] == text;
    }
  }

  /** Encoding what was decoded and decoding it again changes nothing: the timestamp is already whole milliseconds. */
  lemma DecodedIsStable(document: Document, e: Envelope)
    requires Describes(document, e)
    ensures ToMilliseconds(e) == e
  {
    var ms := WrapInt64(document.timestampUnixMilliseconds.value.number);
    assert TruncatedQuotient(ms * TICKS_PER_MILLISECOND, TICKS_PER_MILLISECOND) == ms;
  }

  /** The path of one record: made into an envelope, encoded, decoded. Every valid record arrives. */
  method Deliver(record: Record, timestampTicks: int, steadyNs: uint64) returns (arrived: Option<Envelope>)
    requires InClockRange(timestampTicks)
    ensures arrived.Some? <==> ValidRecord(record)
    ensures arrived.Some? ==>
      exists e :: IsEnvelopeOf(e, record, timestampTicks, steadyNs) && arrived.value == ToMilliseconds(e)
    ensures arrived.Some? ==> var e := arrived.value;
      && e.record == record.(message := e.record.message) && e.producerSteadyNs == steadyNs
      && (e.messageTruncated <==> record.message.Some? && |record.message.value| > 1024)
      && (!e.messageTruncated ==> e.record.message == record.message)
      && (e.messageTruncated ==> e.record.message.Some? && 1021 <= |e.record.message.value| <= 1024
                                 && e.record.message.value <= record.message.value)
      && e.timestampTicks % 10_000 == 0
      && (timestampTicks >= 0 ==> 0 <= timestampTicks - e.timestampTicks < 10_000)
      && (timestampTicks <= 0 ==> 0 <= e.timestampTicks - timestampTicks < 10_000)
  {
    var created := TryCreate(record, timestampTicks, steadyNs);
    if created.None? {
      return None;
    }
    var document := Encode(created.value);
    ProducedIsAcceptable(created.value, record, timestampTicks, steadyNs);
    DescribedEnvelopeIsUnique(document, ToMilliseconds(created.value));
    CutTowardZero(created.value);
    UncutIsWhole(created.value, record, timestampTicks, steadyNs);
    arrived := TryDecode(Some(document));
  }
}
