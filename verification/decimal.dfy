/** Python's `str(n)` for integers: an optional minus sign followed by the
    decimal digits of |n| without leading zeros. Page numbers are keyed by
    this rendering in the session store, so it matters that it is injective. */
module Decimal {

  predicate IsDigit(c: char) {
    '0' <= c <= '9'
  }

  predicate AllDigits(s: string) {
    forall i :: 0 <= i < |s| ==> IsDigit(s[i])
  }

  function DigitChar(d: nat): (c: char)
    requires d < 10
    ensures IsDigit(c)
  {
    (('0' as int) + d) as char
  }

  function DigitValue(c: char): (d: nat)
    requires IsDigit(c)
    ensures d < 10
    ensures DigitChar(d) == c
  {
    c as int - '0' as int
  }

  /** The canonical digit string of a natural number. */
  function Digits(n: nat): (s: string)
    ensures |s| >= 1
    ensures AllDigits(s)
    ensures s[0] == '0' ==> n == 0 && |s| == 1
    decreases n
  {
    if n < 10 then [DigitChar(n)] else Digits(n / 10) + [DigitChar(n % 10)]
  }

  /** `str(n)` for a Python int. */
  function Str(n: int): (s: string)
    ensures |s| >= 1
    ensures s[0] == '-' <==> n < 0
    ensures IsCanonical(s)
  {
    if n < 0 then "-" + Digits(-n) else Digits(n)
  }

  /** The signed digit strings `Parse` reads: an optional minus sign and at
      least one digit, leading zeros allowed. */
  predicate IsDecimal(s: string) {
    if |s| > 0 && s[0] == '-' then |s| >= 2 && AllDigits(s[1..]) else |s| >= 1 && AllDigits(s)
  }

  /** The strings `str(n)` writes: no leading zero except "0" itself, and no "-0". */
  predicate IsCanonical(s: string) {
    && IsDecimal(s)
    && (s[0] == '0' ==> s == "0")
    && (s[0] == '-' ==> s[1] != '0')
  }

  /** Reads back a digit string, most significant digit first. */
  function ParseDigits(s: string): nat
    requires AllDigits(s)
    decreases |s|
  {
    if |s| == 0 then 0 else ParseDigits(s[..|s| - 1]) * 10 + DigitValue(s[|s| - 1])
  }

  /** The independent inverse of `Str`, playing the part of Python's `int(s)`. */
  function Parse(s: string): int
    requires IsDecimal(s)
  {
    if s[0] == '-' then -(ParseDigits(s[1..]) as int) else ParseDigits(s)
  }

  lemma {:induction false} ParseDigitsOfDigits(n: nat)
    ensures ParseDigits(Digits(n)) == n
    decreases n
  {
    if n >= 10 {
      var s := Digits(n);
      assert s[..|s| - 1] == Digits(n / 10);
      ParseDigitsOfDigits(n / 10);
      assert DigitValue(s[|s| - 1]) == n % 10;
    }
  }

  /** Round trip: `int(str(n)) == n`. */
  lemma ParseStr(n: int)
    ensures IsDecimal(Str(n))
    ensures Parse(Str(n)) == n
  {
    if n < 0 {
      assert Str(n)[1..] == Digits(-n);
      ParseDigitsOfDigits(-n);
    } else {
      ParseDigitsOfDigits(n);
    }
  }

  /** Distinct integers render to distinct strings (and equal ones to equal strings). */
  lemma StrInjective(a: int, b: int)
    ensures Str(a) == Str(b) <==> a == b
  {
    if Str(a) == Str(b) {
      ParseStr(a);
      ParseStr(b);
    }
  }

  /** Conversely, a digit string without a leading zero is the rendering of its value. */
  lemma {:induction false} DigitsOfParseDigits(s: string)
    requires |s| >= 1 && AllDigits(s) && (s[0] == '0' ==> s == "0")
    ensures Digits(ParseDigits(s)) == s
    decreases |s|
  {
    if |s| > 1 {
      var t := s[..|s| - 1];
      assert t[0] == s[0];
      DigitsOfParseDigits(t);
      var n := ParseDigits(s);
      assert n / 10 == ParseDigits(t) && n % 10 == DigitValue(s[|s| - 1]);
      assert s == t + [s[|s| - 1]];
    }
  }

  /** So a canonical string is the one `str` writes for its value: `Str` is
      pinned down exactly by its value and canonical form. */
  lemma CanonicalIsStr(s: string)
    requires IsCanonical(s)
    ensures s == Str(Parse(s))
  {
    if s[0] == '-' {
      DigitsOfParseDigits(s[1..]);
      assert s == "-" + s[1..];
    } else {
      DigitsOfParseDigits(s);
    }
  }
}
