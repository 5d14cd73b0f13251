/** Character-level helpers shared by both loggers: the decimal text that an
    output stream writes for an integer, and cutting a line at a separator. */
module Strings {

  /** The character of one decimal digit. */
  function DigitChar(d: nat): (c: char)
    requires d < 10
    ensures '0' <= c <= '9'
    ensures c as int - '0' as int == d
  {
    ('0' as int + d) as char
  }

  /** The value of one decimal digit character. */
  function DigitValue(c: char): (d: nat)
    requires '0' <= c <= '9'
    ensures d < 10 && DigitChar(d) == c
  {
    c as int - '0' as int
  }

  predicate IsDigits(s: string)
  {
    forall i :: 0 <= i < |s| ==> '0' <= s[i] <= '9'
  }

  /** The form an unsigned integer takes on an output stream: at least one
      digit, and no leading zero unless the number is zero. */
  predicate IsCanonicalDecimal(s: string)
  {
    |s| >= 1 && IsDigits(s) && (|s| > 1 ==> s[0] != '0')
  }

  /** What `stream << n` writes for an unsigned integer `n`. */
  function NatToDecimal(n: nat): string
  {
    if n < 10 then [DigitChar(n)] else NatToDecimal(n / 10) + [DigitChar(n % 10)]
  }

  /** The decimal text of a number is in canonical form, a single digit
      exactly for numbers below ten. */
  lemma {:induction false} NatToDecimalCanonical(n: nat)
    ensures IsCanonicalDecimal(NatToDecimal(n))
    ensures (n < 10) == (|NatToDecimal(n)| == 1)
  {
    if n >= 10 {
      NatToDecimalCanonical(n / 10);
      var p := NatToDecimal(n / 10);
      assert NatToDecimal(n) == p + [DigitChar(n % 10)];
      assert NatToDecimal(n)[0] == p[0];
    }
  }

  /** What `stream << i` writes for a signed integer `i`. */
  function IntToDecimal(i: int): string
  {
    if i < 0 then "-" + NatToDecimal(-i) else NatToDecimal(i)
  }

  /** The text of a signed integer is a minus sign exactly for a negative
      number, followed by the canonical decimal text of its magnitude, which
      reads back as that magnitude. */
  lemma IntToDecimalSignAndMagnitude(i: int)
    ensures var s := IntToDecimal(i);
      var digits := if i < 0 then s[1..] else s;
      |s| >= 1 && (s[0] == '-' <==> i < 0) &&
      IsCanonicalDecimal(digits) && DecimalValue(digits) == (if i < 0 then -i else i)
  {
    var m: nat := if i < 0 then -i else i;
    NatToDecimalCanonical(m);
    DecimalRoundTrip(m);
    if i < 0 {
      assert ("-" + NatToDecimal(m))[1..] == NatToDecimal(m);
    }
  }

  /** The number a string of decimal digits denotes. */
  function DecimalValue(s: string): (n: nat)
    requires IsDigits(s)
  {
    if s == [] then 0
    else
      10 * DecimalValue(s[..|s| - 1]) + DigitValue(s[|s| - 1])
  }

  /** Reading back the decimal text of `n` gives `n`. */
  lemma {:induction false} DecimalRoundTrip(n: nat)
    ensures IsDigits(NatToDecimal(n)) && DecimalValue(NatToDecimal(n)) == n
  {
    NatToDecimalCanonical(n);
    if n >= 10 {
      var s := NatToDecimal(n);
      assert s[..|s| - 1] == NatToDecimal(n / 10);
      DecimalRoundTrip(n / 10);
    }
  }

  /** A digit string whose first digit is not zero denotes a positive number. */
  lemma {:induction false} DecimalPositive(s: string)
    requires IsDigits(s) && |s| >= 1 && s[0] != '0'
    ensures DecimalValue(s) >= 1
  {
    if |s| > 1 {
      var p := s[..|s| - 1];
      assert p[0] == s[0];
      DecimalPositive(p);
    }
  }

  /** The other direction: every canonical digit string is the decimal text
      of the number it denotes, so the decimal form is a bijection. */
  lemma {:induction false} DecimalCanonicalRoundTrip(s: string)
    requires IsCanonicalDecimal(s)
    ensures NatToDecimal(DecimalValue(s)) == s
  {
    var n := DecimalValue(s);
    if |s| > 1 {
      var p := s[..|s| - 1];
      assert p[0] == s[0];
      DecimalPositive(p);
      assert IsCanonicalDecimal(p);
      DecimalCanonicalRoundTrip(p);
      assert n / 10 == DecimalValue(p) && n % 10 == DigitValue(s[|s| - 1]);
      assert s == p + [s[|s| - 1]];
    }
  }

  /** The longest prefix of `s` that does not contain `sep`. */
  function TakeUntil(s: string, sep: char): (p: string)
    ensures p <= s && sep !in p
    ensures |p| < |s| ==> s[|p|] == sep
  {
    if s == [] || s[0] == sep then [] else [s[0]] + TakeUntil(s[1..], sep)
  }

  /** Cutting `a + [sep] + b` at its first `sep` gives back `a` when `a` holds no `sep`. */
  lemma {:induction false} TakeUntilJoin(a: string, sep: char, b: string)
    requires sep !in a
    ensures TakeUntil(a + [sep] + b, sep) == a
  {
    if a != [] {
      assert (a + [sep] + b)[1..] == a[1..] + [sep] + b;
      TakeUntilJoin(a[1..], sep, b);
    }
  }
}
