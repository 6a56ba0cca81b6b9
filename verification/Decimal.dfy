/**
 Decimal numerals: printing an integer, reading a run of digits, and C's strtol.
 Text is printed in front of a continuation `k`, so that what follows a numeral is
 part of the statement.
 */
module Decimal {
  predicate IsDigit(c: char) {
    '0' <= c <= '9'
  }

  function DigitChar(d: nat): (c: char)
    requires d < 10
    ensures IsDigit(c) && DigitValue(c) == d
  {
    '0' + d as char
  }

  function DigitValue(c: char): (d: nat)
    requires IsDigit(c)
    ensures d < 10
  {
    (c - '0') as nat
  }

  /** The digits of n, then k. */
  function ShowNat(n: nat, k: string): (s: string)
    ensures |s| > |k| && IsDigit(s[0])
  {
    if n < 10 then [DigitChar(n)] + k else ShowNat(n / 10, [DigitChar(n % 10)] + k)
  }

  function ShowInt(n: int, k: string): (s: string)
    ensures |s| > |k| && (IsDigit(s[0]) || s[0] == '-')
  {
    if n < 0 then "-" + ShowNat(-n, k) else ShowNat(n, k)
  }

  function Show(n: int): string {
    ShowInt(n, "")
  }

  /** Reads digits as far as they go, onto a number already read. */
  function ReadDigits(s: string, acc: nat): (r: (nat, string))
    ensures |r.1| <= |s|
  {
    if s != [] && IsDigit(s[0]) then ReadDigits(s[1..], acc * 10 + DigitValue(s[0])) else (acc, s)
  }

  predicate StartsWithDigit(s: string) {
    s != [] && IsDigit(s[0])
  }

  lemma {:induction false} ReadShownNat(n: nat, k: string)
    ensures ReadDigits(ShowNat(n, k), 0) == ReadDigits(k, n)
  {
    if n < 10 {
      assert ([DigitChar(n)] + k)[1..] == k;
    } else {
      var k' := [DigitChar(n % 10)] + k;
      assert k'[1..] == k;
      ReadShownNat(n / 10, k');
    }
  }

  lemma {:induction false} ShowNatAppend(n: nat, k: string, t: string)
    ensures ShowNat(n, k + t) == ShowNat(n, k) + t
  {
    if n < 10 {
      assert [DigitChar(n)] + (k + t) == [DigitChar(n)] + k + t;
    } else {
      assert [DigitChar(n % 10)] + (k + t) == ([DigitChar(n % 10)] + k) + t;
      ShowNatAppend(n / 10, [DigitChar(n % 10)] + k, t);
    }
  }

  lemma ShowIntAppend(n: int, k: string, t: string)
    ensures ShowInt(n, k + t) == ShowInt(n, k) + t
  {
    ShowNatAppend(if n < 0 then -n else n, k, t);
  }

  /** Different numbers have different numerals. */
  lemma ShowInjective(m: int, n: int)
    requires Show(m) == Show(n)
    ensures m == n
  {
    NumeralShown(m);
    NumeralShown(n);
  }

  predicate IsSpace(c: char) {
    c == ' ' || c == '\t' || c == '\n' || c == '\r' || c == 11 as char || c == 12 as char
  }

  const LONG_MAX := 0x7fff_ffff_ffff_ffff
  const LONG_MIN := -0x8000_0000_0000_0000

  function Clamped(n: int): int {
    if n > LONG_MAX then LONG_MAX else if n < LONG_MIN then LONG_MIN else n
  }

  /** Blanks, a sign, digits; 0 when there are none. */
  function ReadNumeral(s: string): int {
    if s == [] then 0
    else if IsSpace(s[0]) then ReadNumeral(s[1..])
    else if s[0] == '-' then 0 - ReadDigits(s[1..], 0).0
    else if s[0] == '+' then ReadDigits(s[1..], 0).0
    else ReadDigits(s, 0).0
  }

  /** C's strtol in base 10, with a long of 64 bits. */
  function Strtol(s: string): int {
    Clamped(ReadNumeral(s))
  }

  /** strtol undoes printing, up to the limits of a long. */
  lemma StrtolShown(n: int)
    ensures Strtol(Show(n)) ==
              if n > 9223372036854775807 then 9223372036854775807
              else if n < -9223372036854775808 then -9223372036854775808 else n
  {
    NumeralShown(n);
  }

  lemma NumeralShown(n: int)
    ensures ReadNumeral(Show(n)) == n
  {
    ReadShownNat(if n < 0 then -n else n, "");
    if n < 0 {
      assert Show(n)[1..] == ShowNat(-n, "");
    }
  }
}
