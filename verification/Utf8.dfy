/** UTF-8 recognition and truncation, against sections 3 and 4 of RFC 3629. */
module Utf8 {
  import opened Prelude

  /** A Unicode scalar value: every code point except the surrogates. */
  type Scalar = v: int | 0 <= v < 0xD800 || 0xE000 <= v < 0x11_0000

  /** The octets of one character, by the table in section 3 of RFC 3629. */
  function EncodeScalar(v: Scalar): (octets: seq<byte>)
    ensures 1 <= |octets| <= 4
  {
    if v < 0x80 then [v]
    else if v < 0x800 then [0xC0 + v / 0x40, 0x80 + v % 0x40]
    else if v < 0x1_0000 then [0xE0 + v / 0x1000, 0x80 + v / 0x40 % 0x40, 0x80 + v % 0x40]
    else [0xF0 + v / 0x4_0000, 0x80 + v / 0x1000 % 0x40, 0x80 + v / 0x40 % 0x40, 0x80 + v % 0x40]
  }

  function EncodeAll(vs: seq<Scalar>): seq<byte> {
    if vs == [] then [] else EncodeScalar(vs[0]) + EncodeAll(vs[1..])
  }

  /** The text is the encoding of some sequence of scalar values. */
  ghost predicate WellFormed(text: seq<byte>) {
    exists vs: seq<Scalar> :: EncodeAll(vs) == text
  }

  predicate IsUtf8ContinuationByte(value: byte) {
    0x80 <= value <= 0xBF
  }

  /** The range above is the source's mask test. */
  lemma ContinuationMask(value: bv8)
    ensures value & 0xC0 == 0x80 <==> 0x80 <= value <= 0xBF
  {
  }

  /** The length of the character at the front, by the grammar in section 4 of RFC 3629; 0 when there is none. */
  function LeadingLength(s: seq<byte>): (n: nat)
    ensures n <= |s|
  {
    if |s| >= 1 && s[0] <= 0x7F then 1
    else if |s| >= 2 && 0xC2 <= s[0] <= 0xDF && IsUtf8ContinuationByte(s[1]) then 2
    else if |s| >= 3 && IsUtf8ContinuationByte(s[2]) && (
      || (s[0] == 0xE0 && 0xA0 <= s[1] <= 0xBF)
      || (0xE1 <= s[0] <= 0xEC && IsUtf8ContinuationByte(s[1]))
      || (s[0] == 0xED && 0x80 <= s[1] <= 0x9F)
      || (0xEE <= s[0] <= 0xEF && IsUtf8ContinuationByte(s[1]))) then 3
    else if |s| >= 4 && IsUtf8ContinuationByte(s[2]) && IsUtf8ContinuationByte(s[3]) && (
      || (s[0] == 0xF0 && 0x90 <= s[1] <= 0xBF)
      || (0xF1 <= s[0] <= 0xF3 && IsUtf8ContinuationByte(s[1]))
      || (s[0] == 0xF4 && 0x80 <= s[1] <= 0x8F)) then 4
    else 0
  }

  /** The number whose base-64 digits are `c3 c2 c1 c0`. */
  function FromSextets(c3: nat, c2: nat, c1: nat, c0: nat): nat {
    ((c3 * 0x40 + c2) * 0x40 + c1) * 0x40 + c0
  }

  lemma SextetsOf(c3: nat, c2: nat, c1: nat, c0: nat)
    requires c2 < 0x40 && c1 < 0x40 && c0 < 0x40
    ensures var v := FromSextets(c3, c2, c1, c0);
      v % 0x40 == c0 && v / 0x40 % 0x40 == c1 && v / 0x1000 % 0x40 == c2 && v / 0x4_0000 == c3
  {
    var v := FromSextets(c3, c2, c1, c0);
    assert v / 0x40 == (c3 * 0x40 + c2) * 0x40 + c1;
    assert v / 0x1000 == c3 * 0x40 + c2;
  }

  lemma SextetsBack(v: nat)
    ensures v == FromSextets(v / 0x4_0000, v / 0x1000 % 0x40, v / 0x40 % 0x40, v % 0x40)
  {
    assert v / 0x40 / 0x40 == v / 0x1000 && v / 0x1000 / 0x40 == v / 0x4_0000;
  }

  /** The scalar value of the character at the front. */
  function DecodeLeading(s: seq<byte>): (v: nat)
    requires LeadingLength(s) > 0
  {
    var n := LeadingLength(s);
    if n == 1 then s[0]
    else if n == 2 then FromSextets(0, 0, s[0] - 0xC0, s[1] - 0x80)
    else if n == 3 then FromSextets(0, s[0] - 0xE0, s[1] - 0x80, s[2] - 0x80)
    else FromSextets(s[0] - 0xF0, s[1] - 0x80, s[2] - 0x80, s[3] - 0x80)
  }

  /** A recognised character is the encoding of its scalar value. */
  lemma EncodedOfLeading(s: seq<byte>)
    requires LeadingLength(s) > 0
    ensures 0 <= DecodeLeading(s) < 0xD800 || 0xE000 <= DecodeLeading(s) < 0x11_0000
    ensures EncodeScalar(DecodeLeading(s)) == s[..LeadingLength(s)]
  {
    var n := LeadingLength(s);
    if n == 2 {
      SextetsOf(0, 0, s[0] - 0xC0, s[1] - 0x80);
    } else if n == 3 {
      SextetsOf(0, s[0] - 0xE0, s[1] - 0x80, s[2] - 0x80);
    } else if n == 4 {
      EncodedOfFour(s);
    }
  }

  lemma EncodedOfFour(s: seq<byte>)
    requires LeadingLength(s) == 4
    ensures 0x1_0000 <= DecodeLeading(s) < 0x11_0000 && EncodeScalar(DecodeLeading(s)) == s[..4]
  {
    SextetsOf(s[0] - 0xF0, s[1] - 0x80, s[2] - 0x80, s[3] - 0x80);
  }

  /** An encoded character is recognised whole, whatever follows it. */
  lemma LeadingOfEncoded(v: Scalar, rest: seq<byte>)
    ensures LeadingLength(EncodeScalar(v) + rest) == |EncodeScalar(v)|
    ensures DecodeLeading(EncodeScalar(v) + rest) == v
  {
    var octets := EncodeScalar(v);
    var s := octets + rest;
    assert forall i | 0 <= i < |octets| :: s[i] == octets[i];
    SextetsBack(v);
  }

  /** One recogniser step neither loses nor gains well-formedness. */
  lemma StepPreservesWellFormed(s: seq<byte>)
    requires s != []
    ensures LeadingLength(s) == 0 ==> !WellFormed(s)
    ensures LeadingLength(s) > 0 ==> (WellFormed(s) <==> WellFormed(s[LeadingLength(s)..]))
  {
    var n := LeadingLength(s);
    if WellFormed(s) {
      var vs: seq<Scalar> :| EncodeAll(vs) == s;
      assert vs != [];
      LeadingOfEncoded(vs[0], EncodeAll(vs[1..]));
      assert EncodeAll(vs[1..]) == s[n..];
    }
    if n > 0 && WellFormed(s[n..]) {
      var vs: seq<Scalar> :| EncodeAll(vs) == s[n..];
      EncodedOfLeading(s);
      var whole: seq<Scalar> := [DecodeLeading(s)] + vs;
      assert whole[1..] == vs;
      assert EncodeAll(whole) == s[..n] + s[n..] == s;
    }
  }

  lemma EmptyIsWellFormed()
    ensures WellFormed([])
  {
    var none: seq<Scalar> := [];
    assert EncodeAll(none) == [];
  }

  /** The decoded scalar sequence is unique: the encoding is injective. */
  lemma {:induction false} EncodingIsInjective(vs: seq<Scalar>, ws: seq<Scalar>)
    requires EncodeAll(vs) == EncodeAll(ws)
    ensures vs == ws
  {
    if vs == [] || ws == [] {
      assert EncodeAll(vs) == [] <==> vs == [];
      assert EncodeAll(ws) == [] <==> ws == [];
    } else {
      LeadingOfEncoded(vs[0], EncodeAll(vs[1..]));
      LeadingOfEncoded(ws[0], EncodeAll(ws[1..]));
      var n := LeadingLength(EncodeAll(vs));
      assert EncodeAll(vs)[n..] == EncodeAll(vs[1..]);
      assert EncodeAll(ws)[n..] == EncodeAll(ws[1..]);
      EncodingIsInjective(vs[1..], ws[1..]);
      assert vs == [vs[0]] + vs[1..] && ws == [ws[0]] + ws[1..];
    }
  }

  /** The recogniser loop accepts exactly the encodings of scalar sequences. */
  method IsValidUtf8(value: seq<byte>) returns (valid: bool)
    ensures valid <==> WellFormed(value)
  {
    EmptyIsWellFormed();
    var index := 0;
    while index < |value|
      invariant index <= |value|
      invariant WellFormed(value) <==> WellFormed(value[index..])
    {
      ghost var s := value[index..];
      StepPreservesWellFormed(s);
      var first := value[index];
      if first <= 0x7F {
        assert s[1..] == value[index + 1..];
        index := index + 1;
        continue;
      }

      if 0xC2 <= first <= 0xDF {
        if index + 1 >= |value| || !IsUtf8ContinuationByte(value[index + 1]) {
          return false;
        }
        assert s[2..] == value[index + 2..];
        index := index + 2;
        continue;
      }

      if 0xE0 <= first <= 0xEF {
        if index + 2 >= |value| {
          return false;
        }
        var second, third := value[index + 1], value[index + 2];
        var validSecond := IsUtf8ContinuationByte(second);
        if first == 0xE0 {
          validSecond := 0xA0 <= second <= 0xBF;
        } else if first == 0xED {
          validSecond := 0x80 <= second <= 0x9F;
        }
        if !validSecond || !IsUtf8ContinuationByte(third) {
          return false;
        }
        assert s[3..] == value[index + 3..];
        index := index + 3;
        continue;
      }

      if 0xF0 <= first <= 0xF4 {
        if index + 3 >= |value| {
          return false;
        }
        var second, third, fourth := value[index + 1], value[index + 2], value[index + 3];
        var validSecond := IsUtf8ContinuationByte(second);
        if first == 0xF0 {
          validSecond := 0x90 <= second <= 0xBF;
        } else if first == 0xF4 {
          validSecond := 0x80 <= second <= 0x8F;
        }
        if !validSecond || !IsUtf8ContinuationByte(third) || !IsUtf8ContinuationByte(fourth) {
          return false;
        }
        assert s[4..] == value[index + 4..];
        index := index + 4;
        continue;
      }

      return false;
    }
    assert value[index..] == [];
    return true;
  }

  // ---------- Truncation ----------

  lemma DropThenTake<T>(s: seq<T>, n: nat, k: nat)
    requires n <= k <= |s|
    ensures s[..k][n..] == s[n..][..k - n]
  {
  }

  /** In well-formed text the well-formed prefixes are exactly those that end before a non-continuation byte. */
  lemma {:induction false} WellFormedPrefixes(s: seq<byte>, k: nat)
    requires WellFormed(s) && k <= |s|
    ensures WellFormed(s[..k]) <==> k == |s| || !IsUtf8ContinuationByte(s[k])
    decreases |s|
  {
    EmptyIsWellFormed();
    if s == [] {
      assert s[..k] == [];
    } else {
      var n := LeadingLength(s);
      StepPreservesWellFormed(s);
      if k == 0 {
        assert s[..k] == [];
      } else if k < n {
        StepPreservesWellFormed(s[..k]);
      } else {
        WellFormedPrefixes(s[n..], k - n);
        PrefixAfterFirst(s, k);
      }
    }
  }

  lemma PrefixAfterFirst(s: seq<byte>, k: nat)
    requires 0 < LeadingLength(s) <= k <= |s|
    ensures WellFormed(s[..k]) <==> WellFormed(s[LeadingLength(s)..][..k - LeadingLength(s)])
  {
    StepPreservesWellFormed(s[..k]);
    DropThenTake(s, LeadingLength(s), k);
  }

  lemma LeadIsNoContinuation(s: seq<byte>)
    requires LeadingLength(s) > 0
    ensures LeadingLength(s) <= 4 && !IsUtf8ContinuationByte(s[0])
  {
  }

  /** Among any four consecutive bytes of well-formed text one starts a character. */
  lemma {:induction false} CharacterStartNearby(s: seq<byte>, k: nat)
    requires WellFormed(s) && k < |s|
    ensures exists j :: k - 3 <= j <= k && 0 <= j && !IsUtf8ContinuationByte(s[j])
    decreases |s|
  {
    var n := LeadingLength(s);
    StepPreservesWellFormed(s);
    LeadIsNoContinuation(s);
    if k >= n {
      CharacterStartNearby(s[n..], k - n);
      var j :| k - n - 3 <= j <= k - n && 0 <= j && !IsUtf8ContinuationByte(s[n..][j]);
      assert s[n + j] == s[n..][j];
    }
  }

  /** The longest well-formed prefix of `value` within `limit` bytes has `size` bytes. */
  ghost predicate IsLongestPrefix(value: seq<byte>, limit: nat, size: nat) {
    && size <= |value| && size <= limit
    && WellFormed(value[..size])
    && forall k | size < k <= |value| && k <= limit :: !WellFormed(value[..k])
  }

  /** Cutting at the limit backs up to a character boundary: maximal, and at most three bytes short. */
  method Utf8PrefixSizeWithinLimit(value: seq<byte>, maximumBytes: nat) returns (prefixSize: nat)
    ensures prefixSize <= |value| && prefixSize <= maximumBytes
    ensures WellFormed(value) ==> IsLongestPrefix(value, maximumBytes, prefixSize)
    ensures WellFormed(value) && |value| > maximumBytes ==> maximumBytes - 3 <= prefixSize
    ensures |value| <= maximumBytes ==> prefixSize == |value|
    ensures |value| > maximumBytes ==> prefixSize == 0 || !IsUtf8ContinuationByte(value[prefixSize])
    ensures |value| > maximumBytes ==> forall k | prefixSize < k <= maximumBytes :: IsUtf8ContinuationByte(value[k])
  {
    if |value| <= maximumBytes {
      assert value[..|value|] == value;
      return |value|;
    }

    prefixSize := maximumBytes;
    while prefixSize > 0 && IsUtf8ContinuationByte(value[prefixSize])
      invariant prefixSize <= maximumBytes
      invariant forall k | prefixSize < k <= maximumBytes :: IsUtf8ContinuationByte(value[k])
    {
      prefixSize := prefixSize - 1;
    }
    if WellFormed(value) {
      CutIsLongest(value, maximumBytes, prefixSize);
    }
  }

  lemma CutIsLongest(value: seq<byte>, limit: nat, size: nat)
    requires WellFormed(value) && size <= limit < |value|
    requires size == 0 || !IsUtf8ContinuationByte(value[size])
    requires forall k | size < k <= limit :: IsUtf8ContinuationByte(value[k])
    ensures IsLongestPrefix(value, limit, size) && limit - 3 <= size
  {
    if size == 0 {
      EmptyIsWellFormed();
      assert value[..size] == [];
    } else {
      WellFormedPrefixes(value, size);
    }
    forall k | size < k <= limit
      ensures !WellFormed(value[..k])
    {
      WellFormedPrefixes(value, k);
    }
    CharacterStartNearby(value, limit);
  }
}
