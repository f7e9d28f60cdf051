/** The control bots' generator: three shifted exclusive-ors on a 32-bit word, kept as bits with the lowest first. */
module Xorshift {
  import opened Prelude

  const WORD_BITS := 32

  type Word = w: seq<bool> | |w| == WORD_BITS witness seq(WORD_BITS, _ => false)

  predicate IsZero(w: Word) {
    forall i | 0 <= i < WORD_BITS :: !w[i]
  }

  // ---------- Words and numbers ----------

  function Pow2(n: nat): (p: nat)
    ensures p > 0
  {
    if n == 0 then 1 else 2 * Pow2(n - 1)
  }

  function Number(bits: seq<bool>): (n: nat)
    ensures n < Pow2(|bits|)
  {
    if bits == [] then 0 else (if bits[0] then 1 else 0) + 2 * Number(bits[1..])
  }

  function Bits(n: nat, width: nat): (bits: seq<bool>)
    ensures |bits| == width
  {
    if width == 0 then [] else [n % 2 == 1] + Bits(n / 2, width - 1)
  }

  lemma {:induction false} NumberOfBits(n: nat, width: nat)
    requires n < Pow2(width)
    ensures Number(Bits(n, width)) == n
  {
    if width > 0 {
      NumberOfBits(n / 2, width - 1);
    }
  }

  lemma {:induction false} NumberOfZeros(bits: seq<bool>)
    requires forall i | 0 <= i < |bits| :: !bits[i]
    ensures Number(bits) == 0
  {
    if bits != [] {
      NumberOfZeros(bits[1..]);
    }
  }

  // ---------- The step ----------

  /** `w ^ (w << k)`. */
  function LeftXor(w: Word, k: nat): Word {
    seq(WORD_BITS, i requires 0 <= i < WORD_BITS => w[i] != (i >= k && w[i - k]))
  }

  /** `w ^ (w >> k)`. */
  function RightXor(w: Word, k: nat): Word {
    seq(WORD_BITS, i requires 0 <= i < WORD_BITS => w[i] != (i + k < WORD_BITS && w[i + k]))
  }

  function Next(w: Word): Word {
    LeftXor(RightXor(LeftXor(w, 13), 17), 5)
  }

  // ---------- The step taken back ----------

  /** The lowest `n` bits of the word that LeftXor made `y` of, each from the one `k` below. */
  function UndoLeftBits(y: Word, k: nat, n: nat): (x: seq<bool>)
    requires n <= WORD_BITS && k > 0
    ensures |x| == n
  {
    if n == 0 then []
    else
      var below := UndoLeftBits(y, k, n - 1);
      below + [y[n - 1] != (n - 1 >= k && below[n - 1 - k])]
  }

  function UndoLeft(y: Word, k: nat): Word
    requires k > 0
  {
    UndoLeftBits(y, k, WORD_BITS)
  }

  function Mirrored(w: Word): Word {
    seq(WORD_BITS, i requires 0 <= i < WORD_BITS => w[WORD_BITS - 1 - i])
  }

  function UndoRight(y: Word, k: nat): Word
    requires k > 0
  {
    Mirrored(UndoLeft(Mirrored(y), k))
  }

  function Previous(y: Word): Word {
    UndoLeft(UndoRight(UndoLeft(y, 5), 17), 13)
  }

  lemma {:induction false} LeftBitsAreUndone(x: Word, k: nat, n: nat)
    requires k > 0 && n <= WORD_BITS
    ensures UndoLeftBits(LeftXor(x, k), k, n) == x[..n]
  {
    if n > 0 {
      LeftBitsAreUndone(x, k, n - 1);
      assert x[..n] == x[..n - 1] + [x[n - 1]];
    }
  }

  lemma {:induction false} UndoLeftBit(y: Word, k: nat, n: nat, i: nat)
    requires k > 0 && i < n <= WORD_BITS
    ensures var x := UndoLeftBits(y, k, n); y[i] == (x[i] != (i >= k && x[i - k]))
  {
    if i < n - 1 {
      UndoLeftBit(y, k, n - 1, i);
    }
  }

  lemma LeftIsInvertible(w: Word, k: nat)
    requires k > 0
    ensures UndoLeft(LeftXor(w, k), k) == w && LeftXor(UndoLeft(w, k), k) == w
  {
    LeftBitsAreUndone(w, k, WORD_BITS);
    assert w[..WORD_BITS] == w;
    forall i | 0 <= i < WORD_BITS
      ensures LeftXor(UndoLeft(w, k), k)[i] == w[i]
    {
      UndoLeftBit(w, k, WORD_BITS, i);
    }
  }

  lemma MirrorTwice(w: Word)
    ensures Mirrored(Mirrored(w)) == w
  {
  }

  /** A right shift is a left shift seen from the other end. */
  lemma RightIsMirroredLeft(w: Word, k: nat)
    ensures RightXor(w, k) == Mirrored(LeftXor(Mirrored(w), k))
  {
  }

  lemma RightIsInvertible(w: Word, k: nat)
    requires k > 0
    ensures UndoRight(RightXor(w, k), k) == w && RightXor(UndoRight(w, k), k) == w
  {
    RightIsMirroredLeft(w, k);
    MirrorTwice(LeftXor(Mirrored(w), k));
    LeftIsInvertible(Mirrored(w), k);
    MirrorTwice(w);
    RightIsMirroredLeft(UndoRight(w, k), k);
    MirrorTwice(UndoLeft(Mirrored(w), k));
  }

  /** The step is a bijection on 32-bit words. */
  lemma StepIsBijection(w: Word)
    ensures Previous(Next(w)) == w && Next(Previous(w)) == w
  {
    LeftIsInvertible(RightXor(LeftXor(w, 13), 17), 5);
    RightIsInvertible(LeftXor(w, 13), 17);
    LeftIsInvertible(w, 13);
    LeftIsInvertible(UndoRight(UndoLeft(w, 5), 17), 13);
    RightIsInvertible(UndoLeft(w, 5), 17);
    LeftIsInvertible(w, 5);
  }

  lemma ZeroIsFixed(w: Word)
    requires IsZero(w)
    ensures Next(w) == w
  {
    assert LeftXor(w, 13) == w && RightXor(w, 17) == w && LeftXor(w, 5) == w;
  }

  /** Zero is a fixed point, and the only word that leads to zero. */
  lemma OnlyZeroLeadsToZero(w: Word)
    ensures IsZero(Next(w)) <==> IsZero(w)
  {
    if IsZero(w) {
      ZeroIsFixed(w);
    }
    if IsZero(Next(w)) {
      ZeroIsFixed(Next(w));
      StepIsBijection(w);
      StepIsBijection(Next(w));
    }
  }

  // ---------- Seeds and runs ----------

  const ZERO_SEED_REPLACEMENT: uint32 := 0x9E37_79B9

  /** The seed of one client's bot; the sum wraps. */
  function ClientSeed(workloadSeed: uint32, clientIndex: uint32): (seed: uint32)
    ensures seed != 0
  {
    var seed := (workloadSeed + clientIndex) % (UINT32_MAX + 1);
    if seed == 0 then ZERO_SEED_REPLACEMENT else seed
  }

  /** The low 32 bits of the sum. */
  function WrappedSum(workloadSeed: uint32, clientIndex: uint32): nat {
    if workloadSeed + clientIndex <= UINT32_MAX then workloadSeed + clientIndex
    else workloadSeed + clientIndex - 0x1_0000_0000
  }

  /** Every client has its own seed, the wrapped sum, but for the one whose sum is zero. */
  lemma SeedsDifferIff(workloadSeed: uint32, i: uint32, j: uint32)
    ensures ClientSeed(workloadSeed, i)
         == if WrappedSum(workloadSeed, i) == 0 then 0x9E37_79B9 else WrappedSum(workloadSeed, i)
    ensures ClientSeed(workloadSeed, i) != ClientSeed(workloadSeed, j) <==>
      i != j && {WrappedSum(workloadSeed, i), WrappedSum(workloadSeed, j)} != {0, 0x9E37_79B9}
  {
    var a, b := WrappedSum(workloadSeed, i), WrappedSum(workloadSeed, j);
    assert a == b <==> i == j;
    assert a in {a, b} && b in {a, b};
    if a == 0 && b == 0x9E37_79B9 {
      assert {a, b} == {0, 0x9E37_79B9};
    } else if a == 0x9E37_79B9 && b == 0 {
      assert {a, b} == {0, 0x9E37_79B9};
    }
  }

  lemma PowersOfTwo()
    ensures Pow2(32) == UINT32_MAX + 1
  {
    assert Pow2(8) == 256;
    assert Pow2(16) == 256 * Pow2(8);
    assert Pow2(24) == 256 * Pow2(16);
    assert Pow2(32) == 256 * Pow2(24);
  }

  /** A seed as a word is not zero. */
  lemma SeedIsNotZero(workloadSeed: uint32, clientIndex: uint32)
    ensures !IsZero(Bits(ClientSeed(workloadSeed, clientIndex), WORD_BITS))
  {
    PowersOfTwo();
    NumberOfBits(ClientSeed(workloadSeed, clientIndex), WORD_BITS);
    if IsZero(Bits(ClientSeed(workloadSeed, clientIndex), WORD_BITS)) {
      NumberOfZeros(Bits(ClientSeed(workloadSeed, clientIndex), WORD_BITS));
    }
  }

  function Steps(w: Word, n: nat): Word {
    if n == 0 then w else Next(Steps(w, n - 1))
  }

  lemma StepKeepsNonZero(w: Word, next: Word)
    requires next == Next(w) && !IsZero(w)
    ensures !IsZero(next)
  {
    OnlyZeroLeadsToZero(w);
  }

  lemma {:induction false} NonZeroStaysNonZero(w: Word, n: nat)
    requires !IsZero(w)
    ensures !IsZero(Steps(w, n))
  {
    if n == 0 {
      assert Steps(w, 0) == w;
    } else {
      NonZeroStaysNonZero(w, n - 1);
      StepKeepsNonZero(Steps(w, n - 1), Steps(w, n));
    }
  }

  /** However long a bot runs, its state is never zero, so its dice never stick. */
  lemma NeverZero(workloadSeed: uint32, clientIndex: uint32, n: nat)
    ensures !IsZero(Steps(Bits(ClientSeed(workloadSeed, clientIndex), WORD_BITS), n))
  {
    SeedIsNotZero(workloadSeed, clientIndex);
    NonZeroStaysNonZero(Bits(ClientSeed(workloadSeed, clientIndex), WORD_BITS), n);
  }
}
