/** What the control bots' dice can show: every band of the turn roll with the lowest and the highest boost roll. */
module DiceRolls {
  import opened Xorshift

  // ---------- Words by the places of their ones ----------

  function WordOf(ones: set<nat>): Word {
    seq(WORD_BITS, i requires 0 <= i < WORD_BITS => i in ones)
  }

  /** Powers of two inside a word, from a table. */
  function PowerAt(place: nat): nat {
    BitPower(place % 8) * BytePower(place / 8)
  }

  function BitPower(bit: nat): nat {
    if bit < 4 then if bit < 2 then if bit == 0 then 1 else 2 else if bit == 2 then 4 else 8
    else if bit < 6 then if bit == 4 then 16 else 32 else if bit == 6 then 64 else 128
  }

  function BytePower(byte: nat): nat {
    if byte == 0 then 1 else if byte == 1 then 0x100 else if byte == 2 then 0x1_0000 else 0x100_0000
  }

  lemma {:induction false} PowerAtIsPower(place: nat)
    requires place < WORD_BITS
    ensures PowerAt(place) == Pow2(place)
  {
    if place > 0 {
      PowerAtIsPower(place - 1);
      if place % 8 == 0 {
        assert (place - 1) % 8 == 7 && (place - 1) / 8 == place / 8 - 1;
      } else {
        assert (place - 1) % 8 == place % 8 - 1 && (place - 1) / 8 == place / 8;
      }
    }
  }

  /** The first `n` are places inside a word, in ascending order. */
  predicate Ascending(places: seq<nat>, n: nat)
    requires n <= |places|
  {
    n == 0 || (
      places[n - 1] < WORD_BITS && (n > 1 ==> places[n - 2] < places[n - 1]) && Ascending(places, n - 1))
  }

  /** The number with ones at the first `n` places. */
  function Total(places: seq<nat>, n: nat): nat
    requires n <= |places|
  {
    if n == 0 then 0 else Total(places, n - 1) + PowerAt(places[n - 1])
  }

  lemma {:induction false} NumberWithBit(bits: seq<bool>, k: nat)
    requires k < |bits| && !bits[k]
    ensures Number(bits[k := true]) == Number(bits) + Pow2(k)
  {
    if k == 0 {
      assert bits[k := true][1..] == bits[1..];
    } else {
      NumberWithBit(bits[1..], k - 1);
      assert bits[k := true][1..] == bits[1..][k - 1 := true];
    }
  }

  lemma {:induction false} LastIsNew(places: seq<nat>, n: nat, i: nat)
    requires i < n < |places| && Ascending(places, n + 1)
    ensures places[i] < places[n]
  {
    if i < n - 1 {
      LastIsNew(places, n - 1, i);
    }
  }

  function Among(places: seq<nat>, n: nat): set<nat>
    requires n <= |places|
  {
    set i | 0 <= i < n :: places[i]
  }

  lemma {:induction false} NumberOfPlaces(places: seq<nat>, n: nat)
    requires n <= |places| && Ascending(places, n)
    ensures Number(WordOf(Among(places, n))) == Total(places, n)
  {
    if n == 0 {
      NumberOfZeros(WordOf(Among(places, n)));
    } else {
      var place, rest := places[n - 1], Among(places, n - 1);
      NumberOfPlaces(places, n - 1);
      forall i | 0 <= i < n - 1
        ensures places[i] != place
      {
        LastIsNew(places, n - 1, i);
      }
      NumberWithBit(WordOf(rest), place);
      PowerAtIsPower(place);
      assert Among(places, n) == rest + {place};
      assert WordOf(Among(places, n)) == WordOf(rest)[place := true];
    }
  }

  /** A word by the places of its ones, once more as an ascending list, and the number they make up. */
  datatype Ones = Ones(places: set<nat>, listed: seq<nat>, number: nat) {
    ghost predicate Valid() {
      && Ascending(listed, |listed|) && Total(listed, |listed|) == number
      && forall i :: i in listed <==> i in places
    }

    lemma MakeNumber()
      requires Valid()
      ensures Number(WordOf(places)) == number
    {
      NumberOfPlaces(listed, |listed|);
      assert Among(listed, |listed|) == places by {
        forall i
          ensures i in Among(listed, |listed|) <==> i in places
        {
          assert i in listed <==> i in places;
        }
      }
    }
  }

  // ---------- The generator by places ----------

  /** `b` are the ones of a word with ones `a` after `w ^ (w << k)`. */
  predicate LeftTo(a: set<nat>, k: nat, b: set<nat>) {
    forall i: nat | i < WORD_BITS :: i in b <==> ((i in a) != (i >= k && i - k in a))
  }

  /** The same for `w ^ (w >> k)`. */
  predicate RightTo(a: set<nat>, k: nat, b: set<nat>) {
    forall i: nat | i < WORD_BITS :: i in b <==> ((i in a) != (i + k < WORD_BITS && i + k in a))
  }

  lemma LeftMoves(a: set<nat>, k: nat, b: set<nat>)
    requires LeftTo(a, k, b)
    ensures LeftXor(WordOf(a), k) == WordOf(b)
  {
    forall i: nat | i < WORD_BITS
      ensures LeftXor(WordOf(a), k)[i] == WordOf(b)[i]
    {
      assert i in b <==> ((i in a) != (i >= k && i - k in a));
    }
  }

  lemma RightMoves(a: set<nat>, k: nat, b: set<nat>)
    requires RightTo(a, k, b)
    ensures RightXor(WordOf(a), k) == WordOf(b)
  {
    forall i: nat | i < WORD_BITS
      ensures RightXor(WordOf(a), k)[i] == WordOf(b)[i]
    {
      assert i in b <==> ((i in a) != (i + k < WORD_BITS && i + k in a));
    }
  }

  /** Two states in a row, and the ones of the words after the first two exclusive-ors between them. */
  datatype Passage = Passage(first: Ones, a: set<nat>, b: set<nat>, second: Ones) {
    predicate IsStep() {
      LeftTo(first.places, 13, a) && RightTo(a, 17, b) && LeftTo(b, 5, second.places)
    }

    lemma StepIsTaken()
      requires IsStep()
      ensures Next(WordOf(first.places)) == WordOf(second.places)
    {
      LeftMoves(first.places, 13, a);
      RightMoves(a, 17, b);
      LeftMoves(b, 5, second.places);
    }
  }

  // ---------- Two rolls in a row ----------

  predicate Shows(random: Word, turnRoll: nat, boostRoll: nat) {
    !IsZero(random) && Number(Next(random)) % 100 == turnRoll && Number(Next(Next(random))) % 100 == boostRoll
  }

  /** Some state of the dice that is not zero shows `turnRoll` and then `boostRoll`, modulo 100. */
  ghost predicate ComesUp(turnRoll: nat, boostRoll: nat) {
    exists random: Word :: Shows(random, turnRoll, boostRoll)
  }

  /** Taking the generator one step back from the first of the two states. */
  lemma PassageComesUp(p: Passage, turnRoll: nat, boostRoll: nat)
    requires p.IsStep() && p.first.Valid() && p.second.Valid() && p.first.number > 0
    requires turnRoll == p.first.number % 100 && boostRoll == p.second.number % 100
    ensures ComesUp(turnRoll, boostRoll)
  {
    var word := WordOf(p.first.places);
    p.StepIsTaken();
    p.first.MakeNumber();
    p.second.MakeNumber();
    StepIsBijection(word);
    var random := Previous(word);
    OnlyZeroLeadsToZero(random);
    if IsZero(word) {
      NumberOfZeros(word);
    }
    assert Shows(random, turnRoll, boostRoll);
  }

  const STRAIGHT_THEN_LOWEST := Passage(
    Ones({6, 11, 19, 24}, [6, 11, 19, 24], 17303616),
    {6, 11}, {6, 11},
    Ones({6, 16}, [6, 16], 65600))

  lemma StraightThenLowestStep(p: Passage)
    requires p == STRAIGHT_THEN_LOWEST
    ensures p.IsStep()
  {
  }

  lemma StraightThenLowestNumbers(p: Passage)
    requires p == STRAIGHT_THEN_LOWEST
    ensures p.first.Valid() && p.second.Valid()
  {
  }

  lemma StraightThenLowest(p: Passage)
    requires p == STRAIGHT_THEN_LOWEST
    ensures ComesUp(16, 0)
  {
    StraightThenLowestStep(p);
    StraightThenLowestNumbers(p);
    PassageComesUp(p, 16, 0);
  }

  const STRAIGHT_THEN_HIGHEST := Passage(
    Ones({0, 5, 10, 28}, [0, 5, 10, 28], 268436513),
    {0, 5, 10, 13, 18, 23, 28}, {0, 1, 5, 6, 10, 11, 13, 18, 23, 28},
    Ones({0, 1, 13, 15, 16}, [0, 1, 13, 15, 16], 106499))

  lemma StraightThenHighestStep(p: Passage)
    requires p == STRAIGHT_THEN_HIGHEST
    ensures p.IsStep()
  {
  }

  lemma StraightThenHighestNumbers(p: Passage)
    requires p == STRAIGHT_THEN_HIGHEST
    ensures p.first.Valid() && p.second.Valid()
  {
  }

  lemma StraightThenHighest(p: Passage)
    requires p == STRAIGHT_THEN_HIGHEST
    ensures ComesUp(13, 99)
  {
    StraightThenHighestStep(p);
    StraightThenHighestNumbers(p);
    PassageComesUp(p, 13, 99);
  }

  const LEFT_THEN_LOWEST := Passage(
    Ones({8, 13, 21, 26}, [8, 13, 21, 26], 69214464),
    {8, 13}, {8, 13},
    Ones({8, 18}, [8, 18], 262400))

  lemma LeftThenLowestStep(p: Passage)
    requires p == LEFT_THEN_LOWEST
    ensures p.IsStep()
  {
  }

  lemma LeftThenLowestNumbers(p: Passage)
    requires p == LEFT_THEN_LOWEST
    ensures p.first.Valid() && p.second.Valid()
  {
  }

  lemma LeftThenLowest(p: Passage)
    requires p == LEFT_THEN_LOWEST
    ensures ComesUp(64, 0)
  {
    LeftThenLowestStep(p);
    LeftThenLowestNumbers(p);
    PassageComesUp(p, 64, 0);
  }

  const LEFT_THEN_HIGHEST := Passage(
    Ones({0, 5, 8, 10, 21, 23}, [0, 5, 8, 10, 21, 23], 10487073),
    {0, 5, 8, 10, 13, 18}, {0, 1, 5, 8, 10, 13, 18},
    Ones({0, 1, 6, 8, 15, 23}, [0, 1, 6, 8, 15, 23], 8421699))

  lemma LeftThenHighestStep(p: Passage)
    requires p == LEFT_THEN_HIGHEST
    ensures p.IsStep()
  {
  }

  lemma LeftThenHighestNumbers(p: Passage)
    requires p == LEFT_THEN_HIGHEST
    ensures p.first.Valid() && p.second.Valid()
  {
  }

  lemma LeftThenHighest(p: Passage)
    requires p == LEFT_THEN_HIGHEST
    ensures ComesUp(73, 99)
  {
    LeftThenHighestStep(p);
    LeftThenHighestNumbers(p);
    PassageComesUp(p, 73, 99);
  }

  const RIGHT_THEN_LOWEST := Passage(
    Ones({10, 23, 26}, [10, 23, 26], 75498496),
    {10, 26}, {9, 10, 26},
    Ones({9, 10, 14, 15, 26, 31}, [9, 10, 14, 15, 26, 31], 2214643200))

  lemma RightThenLowestStep(p: Passage)
    requires p == RIGHT_THEN_LOWEST
    ensures p.IsStep()
  {
  }

  lemma RightThenLowestNumbers(p: Passage)
    requires p == RIGHT_THEN_LOWEST
    ensures p.first.Valid() && p.second.Valid()
  {
  }

  lemma RightThenLowest(p: Passage)
    requires p == RIGHT_THEN_LOWEST
    ensures ComesUp(96, 0)
  {
    RightThenLowestStep(p);
    RightThenLowestNumbers(p);
    PassageComesUp(p, 96, 0);
  }

  const RIGHT_THEN_HIGHEST := Passage(
    Ones({0, 18, 31}, [0, 18, 31], 2147745793),
    {0, 13, 18}, {0, 1, 13, 18},
    Ones({0, 1, 5, 6, 13, 23}, [0, 1, 5, 6, 13, 23], 8396899))

  lemma RightThenHighestStep(p: Passage)
    requires p == RIGHT_THEN_HIGHEST
    ensures p.IsStep()
  {
  }

  lemma RightThenHighestNumbers(p: Passage)
    requires p == RIGHT_THEN_HIGHEST
    ensures p.first.Valid() && p.second.Valid()
  {
  }

  lemma RightThenHighest(p: Passage)
    requires p == RIGHT_THEN_HIGHEST
    ensures ComesUp(93, 99)
  {
    RightThenHighestStep(p);
    RightThenHighestNumbers(p);
    PassageComesUp(p, 93, 99);
  }
}
