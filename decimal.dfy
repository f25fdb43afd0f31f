/** Decimal text of integers, as JavaScript writes a whole number (`String(n)`, template literals). */
module Decimal {

  function DigitChar(d: nat): (c: char)
    requires d < 10
    ensures '0' <= c <= '9'
  {
    ('0' as int + d) as char
  }

  function DigitValue(c: char): nat {
    if '0' <= c <= '9' then (c as int - '0' as int) as nat else 0
  }

  /** The shortest decimal text of `n`: no sign, no leading zero. */
  function NatToText(n: nat): (s: string)
    ensures |s| >= 1
    ensures forall k :: 0 <= k < |s| ==> '0' <= s[k] <= '9'
    ensures |s| > 1 ==> s[0] != '0'
  {
    if n < 10 then [DigitChar(n)] else NatToText(n / 10) + [DigitChar(n % 10)]
  }

  /** A minus sign in front of the magnitude for negative numbers. */
  function IntToText(i: int): (s: string)
    ensures |s| >= 1
  {
    if i < 0 then "-" + NatToText(-i) else NatToText(i)
  }

  /** The value of a string of decimal digits. */
  function DigitsValue(s: string): nat {
    if s == [] then 0 else DigitsValue(s[..|s| - 1]) * 10 + DigitValue(s[|s| - 1])
  }

  /** The value of an optionally signed decimal text, as a reader of the text would take it. */
  function TextValue(s: string): int {
    if |s| > 0 && s[0] == '-' then 0 - DigitsValue(s[1..]) as int else DigitsValue(s) as int
  }

  lemma {:induction false} NatToTextRoundTrip(n: nat)
    ensures DigitsValue(NatToText(n)) == n
  {
    if n >= 10 {
      var prefix := NatToText(n / 10);
      var s := prefix + [DigitChar(n % 10)];
      assert s[..|s| - 1] == prefix;
      NatToTextRoundTrip(n / 10);
      assert DigitValue(DigitChar(n % 10)) == n % 10;
    } else {
      assert [DigitChar(n)][..0] == [];
    }
  }

  /** Reading back the text of any integer gives the integer. */
  lemma {:induction false} IntToTextRoundTrip(i: int)
    ensures TextValue(IntToText(i)) == i
  {
    if i < 0 {
      NegativeRoundTrip(-i, NatToText(-i));
    } else {
      NatToTextRoundTrip(i);
      var digits := NatToText(i);
      assert digits[0] != '-';
    }
  }

  lemma NegativeRoundTrip(n: nat, digits: string)
    requires n > 0 && digits == NatToText(n)
    ensures TextValue("-" + digits) + n == 0
  {
    NatToTextRoundTrip(n);
    var s := "-" + digits;
    assert s[1..] == digits;
  }
}
