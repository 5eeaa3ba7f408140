/** Decimal digit strings: the `%Y`, `%m`, `%d` fields of dates and their parsing. */
module Digits {

  predicate IsDigit(c: char) {
    '0' <= c <= '9'
  }

  predicate AllDigits(s: seq<char>) {
    forall i :: 0 <= i < |s| ==> IsDigit(s[i])
  }

  function Pow10(n: nat): (r: nat)
    ensures r >= 1
  {
    if n == 0 then 1 else 10 * Pow10(n - 1)
  }

  function DigitChar(d: nat): (c: char)
    requires d < 10
    ensures IsDigit(c)
  {
    ('0' as int + d) as char
  }

  function DigitValue(c: char): (d: nat)
    requires IsDigit(c)
    ensures d < 10 && DigitChar(d) == c
  {
    c as int - '0' as int
  }

  /** The value of a digit string, most significant digit first; "" is 0. */
  function DigitsValue(s: seq<char>): (n: nat)
    requires AllDigits(s)
    ensures n < Pow10(|s|)
  {
    if |s| == 0 then 0 else 10 * DigitsValue(s[..|s| - 1]) + DigitValue(s[|s| - 1])
  }

  /** The `width` least significant decimal digits of `n`, zero-padded on the left. */
  function PadDigits(n: nat, width: nat): (s: seq<char>)
    ensures |s| == width && AllDigits(s)
  {
    if width == 0 then [] else PadDigits(n / 10, width - 1) + [DigitChar(n % 10)]
  }

  /** Reading back a zero-padded number gives the number, when it fits the width. */
  lemma {:induction false} DigitsOfPad(n: nat, width: nat)
    requires n < Pow10(width)
    ensures DigitsValue(PadDigits(n, width)) == n
  {
    if width > 0 {
      var s := PadDigits(n, width);
      DigitsOfPad(n / 10, width - 1);
      assert s[..width - 1] == PadDigits(n / 10, width - 1);
      assert DigitValue(s[width - 1]) == n % 10;
    }
  }

  /** Padding the value of a digit string to its own length gives the string back. */
  lemma {:induction false} PadOfDigits(s: seq<char>)
    requires AllDigits(s)
    ensures PadDigits(DigitsValue(s), |s|) == s
  {
    if |s| > 0 {
      var init := s[..|s| - 1];
      var v := DigitsValue(init);
      var d := DigitValue(s[|s| - 1]);
      PadOfDigits(init);
      assert (10 * v + d) / 10 == v && (10 * v + d) % 10 == d;
      assert s == init + [s[|s| - 1]];
    }
  }
}
