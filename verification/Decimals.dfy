/** Decimal texts and the numbers they stand for. */
module Decimals {

  predicate IsDigit(c: char) {
    '0' <= c <= '9'
  }

  function DigitValue(c: char): nat
    requires IsDigit(c)
  {
    c as int - '0' as int
  }

  predicate AllDigits(text: string) {
    forall k | 0 <= k < |text| :: IsDigit(text[k])
  }

  predicate IsNumber(text: string) {
    text != [] && AllDigits(text)
  }

  function DecimalValue(text: string): nat
    requires AllDigits(text)
  {
    if text == [] then 0 else DecimalValue(text[..|text| - 1]) * 10 + DigitValue(text[|text| - 1])
  }

  function Digit(d: nat): (c: char)
    requires d < 10
    ensures IsDigit(c) && DigitValue(c) == d
  {
    ('0' as int + d) as char
  }

  function Decimal(n: nat): string {
    (if n < 10 then [] else Decimal(n / 10)) + [Digit(n % 10)]
  }

  lemma DigitAppends(text: string, d: nat)
    requires d < 10 && AllDigits(text)
    ensures IsNumber(text + [Digit(d)]) && DecimalValue(text + [Digit(d)]) == DecimalValue(text) * 10 + d
  {
    assert (text + [Digit(d)])[..|text|] == text;
  }

  lemma {:induction false} DecimalIsReadBack(n: nat)
    ensures IsNumber(Decimal(n)) && DecimalValue(Decimal(n)) == n
  {
    if n < 10 {
      DigitAppends([], n);
    } else {
      DecimalIsReadBack(n / 10);
      DigitAppends(Decimal(n / 10), n % 10);
    }
  }

  // ---------- Fixed width ----------

  function Pow10(n: nat): (p: nat)
    ensures p > 0
  {
    if n == 0 then 1 else 10 * Pow10(n - 1)
  }

  /** The last `width` digits of a number. */
  function FixedDecimal(n: nat, width: nat): (text: string)
    ensures |text| == width && AllDigits(text)
  {
    if width == 0 then [] else FixedDecimal(n / 10, width - 1) + [Digit(n % 10)]
  }

  lemma {:induction false} FixedIsReadBack(n: nat, width: nat)
    requires n < Pow10(width)
    ensures DecimalValue(FixedDecimal(n, width)) == n
  {
    if width > 0 {
      FixedIsReadBack(n / 10, width - 1);
      DigitAppends(FixedDecimal(n / 10, width - 1), n % 10);
    }
  }

  lemma {:induction false} DigitsAreFixed(text: string)
    requires AllDigits(text)
    ensures DecimalValue(text) < Pow10(|text|) && FixedDecimal(DecimalValue(text), |text|) == text
  {
    if text != [] {
      var front, last := text[..|text| - 1], text[|text| - 1];
      DigitsAreFixed(front);
      assert text == front + [last];
      assert Digit(DigitValue(last)) == last;
    }
  }
}
