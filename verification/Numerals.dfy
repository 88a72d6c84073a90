/** Decimal digits as text. A regular expression's `\d` matches any Unicode decimal digit, so the
    digits and their values are a table, of which the ten ASCII digits are a part. */
module Numerals {
  type DigitTable = map<char, nat>

  predicate IsAscii(c: char) { '0' <= c <= '9' }

  function AsciiDigit(n: nat): (c: char)
    requires n < 10
    ensures IsAscii(c) && c as int - '0' as int == n
  {
    (n + '0' as int) as char
  }

  /** Every ASCII digit has its value; every value is a digit's; no letter, sign, space, or point
      is a digit. */
  ghost predicate IsTable(t: DigitTable) {
    && (forall c :: IsAscii(c) ==> c in t && t[c] == c as int - '0' as int)
    && (forall c :: c in t ==> t[c] < 10 && !('A' <= c <= 'Z') && c != ' ' && c != '.' && c != '-')
  }

  predicate AllDigits(t: DigitTable, s: string) { forall i :: 0 <= i < |s| ==> s[i] in t }

  predicate AllAscii(s: string) { forall i :: 0 <= i < |s| ==> IsAscii(s[i]) }

  function Pow10(n: nat): (r: nat)
    ensures r > 0
  {
    if n == 0 then 1 else 10 * Pow10(n - 1)
  }

  function ValueOf(t: DigitTable, s: string): nat
    requires AllDigits(t, s)
  {
    if s == "" then 0 else 10 * ValueOf(t, s[..|s| - 1]) + t[s[|s| - 1]]
  }

  /** The number in the given width, with leading zeros. */
  function Digits(n: nat, width: nat): (s: string)
    ensures |s| == width && AllAscii(s)
  {
    if width == 0 then "" else Digits(n / 10, width - 1) + [AsciiDigit(n % 10)]
  }

  lemma {:induction false} DigitsValue(t: DigitTable, n: nat, width: nat)
    requires IsTable(t) && n < Pow10(width)
    ensures AllDigits(t, Digits(n, width)) && ValueOf(t, Digits(n, width)) == n
  {
    if width > 0 {
      DigitsValue(t, n / 10, width - 1);
      var s := Digits(n, width);
      assert s[..width - 1] == Digits(n / 10, width - 1);
    }
  }

  lemma {:induction false} ValueBelow(t: DigitTable, s: string)
    requires IsTable(t) && AllDigits(t, s)
    ensures ValueOf(t, s) < Pow10(|s|)
  {
    if s != "" { ValueBelow(t, s[..|s| - 1]); }
  }

  /** The same digits, in ASCII. */
  function Ascii(t: DigitTable, s: string): string
    requires AllDigits(t, s)
  {
    Digits(ValueOf(t, s), |s|)
  }

  lemma {:induction false} AsciiIsItself(t: DigitTable, s: string)
    requires IsTable(t) && AllDigits(t, s)
    ensures AllAscii(s) <==> Ascii(t, s) == s
  {
    if s != "" {
      var n := |s| - 1;
      AsciiIsItself(t, s[..n]);
      var v := ValueOf(t, s);
      assert v / 10 == ValueOf(t, s[..n]) && v % 10 == t[s[n]];
      assert Ascii(t, s) == Ascii(t, s[..n]) + [AsciiDigit(t[s[n]])];
      assert s == s[..n] + [s[n]];
    }
  }
}
