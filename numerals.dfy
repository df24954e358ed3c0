/**
 * Decimal numerals as the scripts read them from the command line:
 * `str.isdigit()` (restricted to ASCII digits) and `int(str)` on a string
 * that passed it.
 */
module Numerals {

  predicate IsDigit(c: char) {
    '0' <= c <= '9'
  }

  /** `s.isdigit()`: non-empty and made of digits only. */
  predicate IsDigits(s: string) {
    |s| > 0 && forall i :: 0 <= i < |s| ==> IsDigit(s[i])
  }

  function DigitValue(c: char): nat {
    if IsDigit(c) then c as int - '0' as int else 0
  }

  /** `int(s)` for a string of digits (leading zeros allowed, as in Python). */
  function DigitsValue(s: string): nat {
    if |s| == 0 then 0 else 10 * DigitsValue(s[..|s| - 1]) + DigitValue(s[|s| - 1])
  }

  /** Reading one more digit multiplies by ten and adds it. */
  lemma DigitsValueAppend(s: string, c: char)
    ensures DigitsValue(s + [c]) == 10 * DigitsValue(s) + DigitValue(c)
  {
    assert (s + [c])[..|s|] == s;
  }

  /** The value of a four-character numeral, digit by digit. */
  lemma DigitsValueOfFour(a: char, b: char, c: char, d: char)
    ensures DigitsValue([a, b, c, d]) ==
      1000 * DigitValue(a) + 100 * DigitValue(b) + 10 * DigitValue(c) + DigitValue(d)
  {
    DigitsValueAppend([a], b);
    assert [a] + [b] == [a, b];
    DigitsValueAppend([a, b], c);
    assert [a, b] + [c] == [a, b, c];
    DigitsValueAppend([a, b, c], d);
    assert [a, b, c] + [d] == [a, b, c, d];
  }
}
