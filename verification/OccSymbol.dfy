/** OCC option symbols (`domain/options.py`): the 21-character form of the Options Symbology
    Initiative, and its compact form without padding. Strikes are reals. */
module OccSymbol {
  import opened Optionals
  import opened Numerals

  datatype Date = Date(year: nat, month: nat, day: nat)

  predicate Leap(year: nat) { year % 4 == 0 && (year % 100 != 0 || year % 400 == 0) }

  function DaysIn(year: nat, month: nat): nat {
    if month == 2 then (if Leap(year) then 29 else 28)
    else if month == 4 || month == 6 || month == 9 || month == 11 then 30 else 31
  }

  predicate ValidDate(d: Date) {
    1 <= d.year <= 9999 && 1 <= d.month <= 12 && 1 <= d.day <= DaysIn(d.year, d.month)
  }

  /** The dates of the calendar: every month has 28 days, all but February 30, seven have 31, and
      February has 29 in a year that four divides, but of the hundreds only each fourth. */
  lemma ValidDateExactlyWhen(d: Date)
    ensures ValidDate(d) <==>
              && 0 < d.year < 10000 && 0 < d.month < 13 && 0 < d.day
              && (|| d.day <= 28
                  || (d.day <= 30 && d.month != 2)
                  || (d.day == 31 && d.month in {1, 3, 5, 7, 8, 10, 12})
                  || (d.day == 29 && (d.year % 400 == 0 || (d.year % 4 == 0 && d.year % 100 != 0))))
  { }

  datatype Symbol = Symbol(root: string, expiration: Date, call: bool, strike: real) {
    /** What every symbol satisfies (`_check`). */
    predicate Valid() { ValidRoot(root) && ValidDate(expiration) && strike > 0.0 }
  }

  predicate Upper(c: char) { 'A' <= c <= 'Z' }

  predicate ValidRoot(root: string) {
    && 1 <= |root| <= 6 && Upper(root[0])
    && forall i :: 0 <= i < |root| ==> Upper(root[i]) || IsAscii(root[i])
  }

  const LETTERS := "ABCDEFGHIJKLMNOPQRSTUVWXYZ"

  lemma UpperExactlyWhen(c: char)
    ensures Upper(c) <==> c in LETTERS
  {
    assert forall i :: 0 <= i < 26 ==> LETTERS[i] == ('A' as int + i) as char;
    if Upper(c) { assert LETTERS[c as int - 'A' as int] == c; }
  }

  /** One to six letters and digits, the first a letter. */
  lemma ValidRootExactlyWhen(root: string)
    ensures ValidRoot(root) <==> && root != "" && |root| < 7 && root[0] in LETTERS
                                 && forall i :: 0 <= i < |root| ==> root[i] in LETTERS || IsAscii(root[i])
  {
    forall i | 0 <= i < |root| ensures Upper(root[i]) <==> root[i] in LETTERS { UpperExactlyWhen(root[i]); }
  }

  predicate AllSpaces(s: string) { forall i :: 0 <= i < |s| ==> s[i] == ' ' }

  function Spaces(n: nat): string { seq(n, _ => ' ') }

  /** The text before the first space. */
  function Word(s: string): string {
    if s == "" || s[0] == ' ' then "" else [s[0]] + Word(s[1..])
  }

  /** The symbol of matched fields; the calendar and a positive strike are checked. */
  function Build(t: DigitTable, root: string, date: string, right: char, strike: string): Option<Symbol>
    requires |date| == 6 && AllDigits(t, date) && AllDigits(t, strike)
  {
    assert forall i :: 0 <= i < 6 ==> date[i] in t;
    var d := Date(2000 + ValueOf(t, date[..2]), ValueOf(t, date[2..4]), ValueOf(t, date[4..]));
    if !ValidDate(d) || ValueOf(t, strike) == 0 then None
    else Some(Symbol(root, d, right == 'C', ValueOf(t, strike) as real / 1000.0))
  }

  predicate Tail(t: DigitTable, tail: string) {
    |tail| == 15 && AllDigits(t, tail[..6]) && (tail[6] == 'C' || tail[6] == 'P') && AllDigits(t, tail[7..])
  }

  /** `parse`. The last fifteen characters are the date, the right, and the strike. */
  function Parse(t: DigitTable, s: string): Option<Symbol> {
    if |s| < 16 then None
    else
      var head, tail := s[..|s| - 15], s[|s| - 15..];
      var root := Word(head);
      if !ValidRoot(root) || !(root <= head && AllSpaces(head[|root|..])) || !Tail(t, tail) then None
      else Build(t, root, tail[..6], tail[6], tail[7..])
  }

  function Units(x: Symbol): int { (x.strike * 1000.0).Floor }

  /** The strike is a number of thousandths that eight digits hold. */
  predicate Representable(x: Symbol) {
    var units := x.strike * 1000.0;
    units == units.Floor as real && 0 < units.Floor < Pow10(8)
  }

  /** `%y%m%d`. */
  function DateText(d: Date): (s: string)
    ensures |s| == 6
  {
    Digits(d.year % 100, 2) + Digits(d.month, 2) + Digits(d.day, 2)
  }

  /** `__str__`: the padded form; None when the strike cannot be written. */
  function Print(x: Symbol): Option<string>
    requires x.Valid()
  {
    if !Representable(x) then None
    else Some(x.root + Spaces(6 - |x.root|)
              + (DateText(x.expiration) + [if x.call then 'C' else 'P'] + Digits(Units(x), 8)))
  }

  // ---- The symbol pattern leaves no choice -------------------------------------------------

  /** The pattern: a root, any padding, six digits, C or P, eight digits. */
  predicate Matches(t: DigitTable, s: string, root: string, pad: nat, date: string, right: char, strike: string) {
    && ValidRoot(root)
    && |date| == 6 && AllDigits(t, date)
    && (right == 'C' || right == 'P')
    && |strike| == 8 && AllDigits(t, strike)
    && s == root + Spaces(pad) + (date + [right] + strike)
  }

  lemma {:induction false} WordOfRoot(root: string, pad: nat)
    requires forall i :: 0 <= i < |root| ==> root[i] != ' '
    ensures Word(root + Spaces(pad)) == root
  {
    if root != "" {
      assert (root + Spaces(pad))[1..] == root[1..] + Spaces(pad);
      WordOfRoot(root[1..], pad);
    }
  }

  lemma TailParts(date: string, right: char, strike: string)
    requires |date| == 6 && |strike| == 8
    ensures var tail := date + [right] + strike;
            |tail| == 15 && tail[..6] == date && tail[6] == right && tail[7..] == strike
  { }

  /** A text that matches parses to its parts. So a text matches in one way only, even when its
      root ends in digits and there is no padding. */
  lemma MatchIsParsed(t: DigitTable, s: string, root: string, pad: nat, date: string, right: char, strike: string)
    requires Matches(t, s, root, pad, date, right, strike)
    ensures Parse(t, s) == Build(t, root, date, right, strike)
  {
    var tail := date + [right] + strike;
    TailParts(date, right, strike);
    var head := root + Spaces(pad);
    assert s[..|s| - 15] == head && s[|s| - 15..] == tail;
    WordOfRoot(root, pad);
    assert root <= head;
  }

  lemma MatchIsUnique(t: DigitTable, s: string,
                      root: string, pad: nat, date: string, right: char, strike: string,
                      root': string, pad': nat, date': string, right': char, strike': string)
    requires Matches(t, s, root, pad, date, right, strike) && Matches(t, s, root', pad', date', right', strike')
    ensures root == root' && pad == pad' && date == date' && right == right' && strike == strike'
  {
    TailParts(date, right, strike);
    TailParts(date', right', strike');
    var n := |s| - 15;
    assert s[n..] == date + [right] + strike == date' + [right'] + strike';
    assert s[..n] == root + Spaces(pad) == root' + Spaces(pad');
    WordOfRoot(root, pad);
    WordOfRoot(root', pad');
    assert |root| + pad == n == |root'| + pad';
  }

  /** What parses matches the pattern. */
  lemma ParsedMatches(t: DigitTable, s: string) returns (root: string, pad: nat, date: string, right: char, strike: string)
    requires Parse(t, s).Some?
    ensures Matches(t, s, root, pad, date, right, strike)
    ensures Parse(t, s) == Build(t, root, date, right, strike)
  {
    var head, tail := s[..|s| - 15], s[|s| - 15..];
    root, date, right, strike := Word(head), tail[..6], tail[6], tail[7..];
    pad := |head| - |root|;
    assert head[|root|..] == Spaces(pad);
    assert head == root + Spaces(pad);
    assert tail == date + [right] + strike;
    assert s == head + tail;
  }

  // ---- Round trips ---------------------------------------------------------------------------

  lemma DateDigits(t: DigitTable, e: Date)
    requires IsTable(t) && ValidDate(e)
    ensures AllDigits(t, DateText(e))
    ensures ValueOf(t, DateText(e)[..2]) == e.year % 100
    ensures ValueOf(t, DateText(e)[2..4]) == e.month && ValueOf(t, DateText(e)[4..]) == e.day
  {
    var y, m, d := Digits(e.year % 100, 2), Digits(e.month, 2), Digits(e.day, 2);
    assert Pow10(2) == 100 by { assert Pow10(1) == 10; }
    DigitsValue(t, e.year % 100, 2);
    DigitsValue(t, e.month, 2);
    DigitsValue(t, e.day, 2);
    assert DateText(e)[..2] == y && DateText(e)[2..4] == m && DateText(e)[4..] == d;
  }

  lemma UnitsBack(strike: real, n: nat)
    requires strike * 1000.0 == n as real
    ensures n as real / 1000.0 == strike
  { }

  /** What is printed matches the pattern, with the symbol's own values. */
  lemma PrintedMatches(t: DigitTable, x: Symbol)
    requires IsTable(t) && x.Valid() && Representable(x)
    ensures Matches(t, Print(x).value, x.root, 6 - |x.root|, DateText(x.expiration),
                    if x.call then 'C' else 'P', Digits(Units(x), 8))
    ensures ValueOf(t, Digits(Units(x), 8)) == Units(x)
  {
    DateDigits(t, x.expiration);
    DigitsValue(t, Units(x), 8);
  }

  /** What is printed parses to the symbol with its year in this century. */
  lemma PrintedParses(t: DigitTable, x: Symbol)
    requires IsTable(t) && x.Valid() && Representable(x)
    requires ValidDate(x.expiration.(year := 2000 + x.expiration.year % 100))
    ensures Parse(t, Print(x).value) == Some(x.(expiration := x.expiration.(year := 2000 + x.expiration.year % 100)))
  {
    PrintedMatches(t, x);
    DateDigits(t, x.expiration);
    MatchIsParsed(t, Print(x).value, x.root, 6 - |x.root|, DateText(x.expiration),
                  if x.call then 'C' else 'P', Digits(Units(x), 8));
    UnitsBack(x.strike, Units(x));
  }

  /** The round trip holds exactly for expirations of 2000 to 2099: the printed form has only two
      digits of the year. */
  lemma RoundTripExactlyWhen(t: DigitTable, x: Symbol)
    requires IsTable(t) && x.Valid() && Representable(x)
    ensures Parse(t, Print(x).value) == Some(x) <==> 2000 <= x.expiration.year <= 2099
  {
    if 2000 <= x.expiration.year <= 2099 {
      assert x.expiration.(year := 2000 + x.expiration.year % 100) == x.expiration;
      PrintedParses(t, x);
    } else {
      ParsedYear(t, Print(x).value);
    }
  }

  /** Every parsed symbol is valid, representable, and of this century. */
  lemma ParsedYear(t: DigitTable, s: string)
    requires IsTable(t)
    ensures var x := Parse(t, s);
            x.Some? ==> x.value.Valid() && Representable(x.value) && 2000 <= x.value.expiration.year <= 2099
  {
    if Parse(t, s).Some? {
      var root, pad, date, right, strike := ParsedMatches(t, s);
      assert Pow10(2) == 100 by { assert Pow10(1) == 10; }
      assert forall i :: 0 <= i < 6 ==> date[i] in t;
      ValueBelow(t, date[..2]);
      ValueBelow(t, strike);
      UnitsOf(ValueOf(t, strike));
    }
  }

  lemma UnitsOf(n: nat)
    requires n > 0
    ensures var strike := n as real / 1000.0; strike > 0.0 && strike * 1000.0 == n as real && (strike * 1000.0).Floor == n
  { }

  /** Printing a parsed text, padded or compact, gives its canonical form: the same parts, padded
      to 21 characters, in ASCII digits. */
  lemma ParsedPrints(t: DigitTable, s: string, root: string, pad: nat, date: string, right: char, strike: string)
    requires IsTable(t) && Matches(t, s, root, pad, date, right, strike) && Parse(t, s).Some?
    ensures Parse(t, s).value.Valid()
    ensures Print(Parse(t, s).value)
            == Some(root + Spaces(6 - |root|) + (Ascii(t, date) + [right] + Ascii(t, strike)))
  {
    MatchIsParsed(t, s, root, pad, date, right, strike);
    ParsedYear(t, s);
    var x := Parse(t, s).value;
    UnitsOf(ValueOf(t, strike));
    DateAscii(t, date);
    assert DateText(x.expiration) == Ascii(t, date);
  }

  lemma DateAscii(t: DigitTable, date: string)
    requires IsTable(t) && |date| == 6 && AllDigits(t, date)
    ensures Ascii(t, date) == Ascii(t, date[..2]) + Ascii(t, date[2..4]) + Ascii(t, date[4..])
  {
    AsciiJoin(t, date[..2], date[2..4]);
    AsciiJoin(t, date[..4], date[4..]);
    assert date[..2] + date[2..4] == date[..4];
    assert date[..4] + date[4..] == date;
  }

  lemma {:induction false} AsciiJoin(t: DigitTable, a: string, b: string)
    requires IsTable(t) && AllDigits(t, a) && AllDigits(t, b)
    ensures AllDigits(t, a + b) && Ascii(t, a + b) == Ascii(t, a) + Ascii(t, b)
  {
    if b == "" {
      assert a + b == a;
    } else {
      var n := |b| - 1;
      AsciiJoin(t, a, b[..n]);
      assert (a + b)[..|a| + n] == a + b[..n];
      AsciiLast(t, a + b);
      AsciiLast(t, b);
    }
  }

  lemma AsciiLast(t: DigitTable, s: string)
    requires IsTable(t) && AllDigits(t, s) && s != ""
    ensures Ascii(t, s) == Ascii(t, s[..|s| - 1]) + [AsciiDigit(t[s[|s| - 1]])]
  {
    var v := ValueOf(t, s);
    assert v / 10 == ValueOf(t, s[..|s| - 1]) && v % 10 == t[s[|s| - 1]];
  }

  /** A text is its own printed form exactly when it is padded to 21 characters in ASCII digits. */
  lemma CanonicalExactlyWhen(t: DigitTable, s: string)
    requires IsTable(t) && Parse(t, s).Some?
    ensures Parse(t, s).value.Valid()
    ensures Print(Parse(t, s).value) == Some(s) <==> |s| == 21 && AllAscii(s[6..12]) && AllAscii(s[13..])
  {
    var root, pad, date, right, strike := ParsedMatches(t, s);
    ParsedPrints(t, s, root, pad, date, right, strike);
    AsciiIsItself(t, date);
    AsciiIsItself(t, strike);
    var printed := Print(Parse(t, s).value).value;
    assert |printed| == 21;
    TailParts(date, right, strike);
    TailParts(Ascii(t, date), right, Ascii(t, strike));
    if |s| == 21 {
      assert pad == 6 - |root|;
      assert s[6..] == date + [right] + strike;
      assert s[6..12] == date && s[13..] == strike;
      assert printed[6..] == Ascii(t, date) + [right] + Ascii(t, strike);
      assert printed[6..12] == Ascii(t, date) && printed[13..] == Ascii(t, strike);
    }
  }
}
