/** The 64-byte little-endian echo payload and its codec. */
module BenchmarkProtocol {
  import opened Prelude

  const REQUEST_PACKET_TYPE: uint16 := 0x7F01
  const RESPONSE_PACKET_TYPE: uint16 := 0x7F02
  const PROTOCOL_VERSION: uint16 := 2
  const ECHO: uint16 := 1

  const PAYLOAD_FIELD_BYTES := 40
  const CANONICAL_PAYLOAD_BYTES := 64
  const CANONICAL_PADDING_BYTES := CANONICAL_PAYLOAD_BYTES - PAYLOAD_FIELD_BYTES

  /** `operation` is any 16-bit number: decoding casts it to the enumeration unchecked. */
  datatype Payload = Payload(
    protocolVersion: uint16, operation: uint16, clientId: uint32, sequence: uint64, clientSend: uint64,
    serverReceived: uint64, serverPrepared: uint64)

  // ---------- Little-endian numbers ----------

  function Pow256(n: nat): (p: nat)
    ensures p > 0
  {
    if n == 0 then 1 else 256 * Pow256(n - 1)
  }

  /** The `n` low bytes of a number, lowest first. */
  function Bytes(value: nat, n: nat): (s: seq<byte>)
    ensures |s| == n
  {
    if n == 0 then [] else [value % 256] + Bytes(value / 256, n - 1)
  }

  function Value(s: seq<byte>): nat {
    if s == [] then 0 else s[0] + 256 * Value(s[1..])
  }

  lemma {:induction false} ValueOfBytes(value: nat, n: nat)
    requires value < Pow256(n)
    ensures Value(Bytes(value, n)) == value
  {
    if n > 0 {
      ValueOfBytes(value / 256, n - 1);
    }
  }

  lemma {:induction false} BytesOfValue(s: seq<byte>)
    ensures Value(s) < Pow256(|s|) && Bytes(Value(s), |s|) == s
  {
    if s != [] {
      BytesOfValue(s[1..]);
      assert Value(s) % 256 == s[0] && Value(s) / 256 == Value(s[1..]);
    }
  }

  /** A right shift by 8 * i bits. */
  function ShiftedRight(value: nat, i: nat): nat {
    if i == 0 then value else ShiftedRight(value / 256, i - 1)
  }

  lemma {:induction false} ByteIsShifted(value: nat, n: nat, i: nat)
    requires i < n
    ensures Bytes(value, n)[i] == ShiftedRight(value, i) % 256
  {
    if i > 0 {
      ByteIsShifted(value / 256, n - 1, i - 1);
    }
  }

  lemma {:induction false} ValueAppend(s: seq<byte>, b: byte)
    ensures Value(s + [b]) == Value(s) + b * Pow256(|s|)
  {
    if s == [] {
      assert s + [b] == [b];
    } else {
      ValueAppend(s[1..], b);
      assert (s + [b])[1..] == s[1..] + [b];
      assert Pow256(|s|) == 256 * Pow256(|s| - 1);
    }
  }

  /** WriteU16, WriteU32 and WriteU64: the bytes of a number, in place. */
  method WriteUnsigned(value: nat, width: nat, offset: nat, bytes: array<byte>)
    requires offset + width <= bytes.Length
    modifies bytes
    ensures bytes[..offset + width] == old(bytes[..offset]) + Bytes(value, width)
    ensures bytes[offset + width..] == old(bytes[offset + width..])
  {
    for byteIndex := 0 to width
      invariant forall k | 0 <= k < byteIndex :: bytes[offset + k] == Bytes(value, width)[k]
      invariant bytes[..offset] == old(bytes[..offset]) && bytes[offset + width..] == old(bytes[offset + width..])
    {
      ByteIsShifted(value, width, byteIndex);
      bytes[offset + byteIndex] := ShiftedRight(value, byteIndex) % 256;
    }
    assert bytes[..offset + width] == bytes[..offset] + bytes[offset..offset + width];
    assert bytes[offset..offset + width] == Bytes(value, width);
  }

  /** ReadU16, ReadU32 and ReadU64: shifted bytes never overlap, so or-ing them adds them. */
  method ReadUnsigned(width: nat, offset: nat, bytes: array<byte>) returns (value: nat)
    requires offset + width <= bytes.Length
    ensures value == Value(bytes[offset..offset + width]) && value < Pow256(width)
  {
    value := 0;
    for byteIndex := 0 to width
      invariant value == Value(bytes[offset..offset + byteIndex])
    {
      ValueAppend(bytes[offset..offset + byteIndex], bytes[offset + byteIndex]);
      assert bytes[offset..offset + byteIndex + 1] == bytes[offset..offset + byteIndex] + [bytes[offset + byteIndex]];
      value := value + bytes[offset + byteIndex] * Pow256(byteIndex);
    }
    BytesOfValue(bytes[offset..offset + width]);
  }

  // ---------- The payload ----------

  function Padding(): (s: seq<byte>)
    ensures |s| == CANONICAL_PADDING_BYTES
  {
    seq(CANONICAL_PADDING_BYTES, i requires 0 <= i < CANONICAL_PADDING_BYTES => i)
  }

  function FieldBytes(p: Payload): (s: seq<byte>)
    ensures |s| == PAYLOAD_FIELD_BYTES
  {
    Bytes(p.protocolVersion, 2) + Bytes(p.operation, 2) + Bytes(p.clientId, 4) + Bytes(p.sequence, 8)
    + Bytes(p.clientSend, 8) + Bytes(p.serverReceived, 8) + Bytes(p.serverPrepared, 8)
  }

  /** The wire form of a payload. */
  function Canonical(p: Payload): (s: seq<byte>)
    ensures |s| == CANONICAL_PAYLOAD_BYTES
  {
    FieldBytes(p) + Padding()
  }

  lemma Widths()
    ensures Pow256(2) == 0x1_0000 && Pow256(4) == UINT32_MAX + 1 && Pow256(8) == UINT64_MAX + 1
  {
    assert Pow256(4) == 256 * (256 * Pow256(2));
    assert Pow256(6) == 256 * (256 * Pow256(4));
    assert Pow256(8) == 256 * (256 * Pow256(6));
  }

  /** The number in the `n` bytes at an offset. */
  function Field(s: seq<byte>, offset: nat, n: nat): (v: nat)
    requires offset + n <= |s|
    ensures v < Pow256(n)
  {
    BytesOfValue(s[offset..offset + n]);
    Value(s[offset..offset + n])
  }

  /** The fields read back from the wire, whatever the padding. */
  function Fields(s: seq<byte>): Payload
    requires |s| == CANONICAL_PAYLOAD_BYTES
  {
    Widths();
    Payload(Field(s, 0, 2), Field(s, 2, 2), Field(s, 4, 4), Field(s, 8, 8), Field(s, 16, 8), Field(s, 24, 8),
            Field(s, 32, 8))
  }

  predicate IsPadded(s: seq<byte>)
    requires |s| == CANONICAL_PAYLOAD_BYTES
  {
    s[PAYLOAD_FIELD_BYTES..] == Padding()
  }

  /** Where each field stands in the 64 bytes, lowest byte first, and what fills the rest: 0, 1, 2 up to 23. */
  lemma WireLayout(p: Payload)
    ensures var s := Canonical(p);
      && |s| == 64
      && Value(s[0..2]) == p.protocolVersion && Value(s[2..4]) == p.operation
      && Value(s[4..8]) == p.clientId && Value(s[8..16]) == p.sequence && Value(s[16..24]) == p.clientSend
      && Value(s[24..32]) == p.serverReceived && Value(s[32..40]) == p.serverPrepared
      && forall k | 40 <= k < 64 :: s[k] == k - 40
  {
    var s := Canonical(p);
    DecodeOfEncode(p);
    assert s[40..] == Padding();
    forall k | 40 <= k < 64
      ensures s[k] == k - 40
    {
      assert s[k] == s[40..][k - 40];
    }
  }

  /** A number's bytes weigh 1, 256, 256 * 256 and so on. */
  lemma {:induction false} ValueWeighs(s: seq<byte>, i: nat)
    requires i < |s|
    ensures Value(s) == Value(s[..i]) + Pow256(i) * (s[i] + 256 * Value(s[i + 1..]))
  {
    if i == 0 {
      assert s[..0] == [];
    } else {
      ValueWeighs(s[1..], i - 1);
      assert s[1..][..i - 1] == s[..i][1..] && s[1..][i..] == s[i + 1..];
      Regroup(Pow256(i - 1), s[i] + 256 * Value(s[i + 1..]));
    }
  }

  lemma Regroup(p: nat, x: nat)
    ensures 256 * (p * x) == 256 * p * x
  {
  }

  /** Every payload survives the wire. */
  lemma DecodeOfEncode(p: Payload)
    ensures Fields(Canonical(p)) == p && IsPadded(Canonical(p))
  {
    var s := Canonical(p);
    Widths();
    assert s[0..2] == Bytes(p.protocolVersion, 2) && s[2..4] == Bytes(p.operation, 2);
    assert s[4..8] == Bytes(p.clientId, 4) && s[8..16] == Bytes(p.sequence, 8);
    assert s[16..24] == Bytes(p.clientSend, 8) && s[24..32] == Bytes(p.serverReceived, 8);
    assert s[32..40] == Bytes(p.serverPrepared, 8);
    ValueOfBytes(p.protocolVersion, 2);
    ValueOfBytes(p.operation, 2);
    ValueOfBytes(p.clientId, 4);
    ValueOfBytes(p.sequence, 8);
    ValueOfBytes(p.clientSend, 8);
    ValueOfBytes(p.serverReceived, 8);
    ValueOfBytes(p.serverPrepared, 8);
  }

  /** The bytes of the fields are the bytes they were read from. */
  lemma FieldsAreBack(s: seq<byte>)
    requires |s| == CANONICAL_PAYLOAD_BYTES
    ensures FieldBytes(Fields(s)) == s[..PAYLOAD_FIELD_BYTES]
  {
    BytesOfValue(s[0..2]);
    BytesOfValue(s[2..4]);
    BytesOfValue(s[4..8]);
    BytesOfValue(s[8..16]);
    BytesOfValue(s[16..24]);
    BytesOfValue(s[24..32]);
    BytesOfValue(s[32..40]);
    assert s[..40] == s[0..2] + s[2..4] + s[4..8] + s[8..16] + s[16..24] + s[24..32] + s[32..40];
  }

  /** The wire form is recovered from the fields exactly when its padding is the deterministic one. */
  lemma EncodeOfDecode(s: seq<byte>)
    requires |s| == CANONICAL_PAYLOAD_BYTES
    ensures Canonical(Fields(s)) == s <==> IsPadded(s)
  {
    FieldsAreBack(s);
    assert s == s[..PAYLOAD_FIELD_BYTES] + s[PAYLOAD_FIELD_BYTES..];
    assert Canonical(Fields(s))[PAYLOAD_FIELD_BYTES..] == Padding();
  }

  // ---------- The codec ----------

  method EncodeCanonical(p: Payload) returns (bytes: array<byte>)
    ensures fresh(bytes) && bytes[..] == Canonical(p)
  {
    bytes := new byte[CANONICAL_PAYLOAD_BYTES](_ => 0);
    WriteFields(p, bytes);
    for paddingIndex := 0 to CANONICAL_PADDING_BYTES
      invariant bytes[..PAYLOAD_FIELD_BYTES] == FieldBytes(p)
      invariant forall k | 0 <= k < paddingIndex :: bytes[PAYLOAD_FIELD_BYTES + k] == Padding()[k]
    {
      bytes[PAYLOAD_FIELD_BYTES + paddingIndex] := paddingIndex;
    }
    assert bytes[PAYLOAD_FIELD_BYTES..] == Padding();
    assert bytes[..] == bytes[..PAYLOAD_FIELD_BYTES] + bytes[PAYLOAD_FIELD_BYTES..];
  }

  method WriteFields(p: Payload, bytes: array<byte>)
    requires bytes.Length == CANONICAL_PAYLOAD_BYTES
    modifies bytes
    ensures bytes[..PAYLOAD_FIELD_BYTES] == FieldBytes(p)
  {
    WriteUnsigned(p.protocolVersion, 2, 0, bytes);
    assert bytes[..2] == Bytes(p.protocolVersion, 2);
    WriteUnsigned(p.operation, 2, 2, bytes);
    WriteUnsigned(p.clientId, 4, 4, bytes);
    WriteUnsigned(p.sequence, 8, 8, bytes);
    WriteUnsigned(p.clientSend, 8, 16, bytes);
    WriteUnsigned(p.serverReceived, 8, 24, bytes);
    WriteUnsigned(p.serverPrepared, 8, 32, bytes);
  }

  method DecodeCanonical(bytes: array<byte>) returns (p: Payload)
    requires bytes.Length == CANONICAL_PAYLOAD_BYTES
    ensures p == Fields(bytes[..])
  {
    Widths();
    var protocolVersion := ReadUnsigned(2, 0, bytes);
    var operation := ReadUnsigned(2, 2, bytes);
    var clientId := ReadUnsigned(4, 4, bytes);
    var sequence := ReadUnsigned(8, 8, bytes);
    var clientSend := ReadUnsigned(8, 16, bytes);
    var serverReceived := ReadUnsigned(8, 24, bytes);
    var serverPrepared := ReadUnsigned(8, 32, bytes);
    p := Payload(protocolVersion, operation, clientId, sequence, clientSend, serverReceived, serverPrepared);
    SlicesOfAll(bytes);
  }

  lemma SlicesOfAll(bytes: array<byte>)
    ensures forall i, j | 0 <= i <= j <= bytes.Length :: bytes[i..j] == bytes[..][i..j]
  {
  }

  method HasDeterministicPadding(bytes: array<byte>) returns (padded: bool)
    requires bytes.Length == CANONICAL_PAYLOAD_BYTES
    ensures padded <==> IsPadded(bytes[..])
  {
    for paddingIndex := 0 to CANONICAL_PADDING_BYTES
      invariant forall k | 0 <= k < paddingIndex :: bytes[PAYLOAD_FIELD_BYTES + k] == Padding()[k]
    {
      if bytes[PAYLOAD_FIELD_BYTES + paddingIndex] != paddingIndex {
        assert bytes[..][PAYLOAD_FIELD_BYTES..][paddingIndex] != Padding()[paddingIndex];
        return false;
      }
    }
    return true;
  }
}
