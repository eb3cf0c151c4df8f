/**
 * Go's `strconv.Atoi` on a 64-bit platform: an optional '+' or '-' sign
 * followed by at least one decimal digit, whose value fits in an `int`.
 * No white space, no underscores, no other base.
 */
module Strconv {
  import opened Results

  const MinInt64: int := -0x8000_0000_0000_0000
  const MaxInt64: int := 0x7FFF_FFFF_FFFF_FFFF

  predicate IsDigit(c: char) { '0' <= c <= '9' }

  predicate AllDigits(s: string) {
    forall i :: 0 <= i < |s| ==> IsDigit(s[i])
  }

  function DigitValue(c: char): (d: nat)
    requires IsDigit(c)
    ensures d < 10
  {
    c as int - '0' as int
  }

  function DigitChar(d: nat): (c: char)
    requires d < 10
    ensures IsDigit(c) && DigitValue(c) == d
  {
    ('0' as int + d) as char
  }

  /** The value of a string of decimal digits, most significant first. */
  function DigitsValue(s: string): nat
    requires AllDigits(s)
  {
    if s == [] then 0 else DigitsValue(s[..|s| - 1]) * 10 + DigitValue(s[|s| - 1])
  }

  /** The digits of a numeral: everything after a leading '+' or '-'. */
  function DigitPart(s: string): string
    requires s != []
  {
    if s[0] == '-' || s[0] == '+' then s[1..] else s
  }

  /** The value of digits `d` under a sign. */
  function Signed(negative: bool, d: nat): int {
    if negative then -(d as int) else d
  }

  /** `strconv.Atoi`: the value of a signed decimal numeral, or None when it is not one or overflows. */
  function Atoi(s: string): (r: Option<int>)
    ensures r.Some? ==> s != [] && DigitPart(s) != [] && AllDigits(DigitPart(s))
    ensures r.Some? ==> r.value == Signed(s[0] == '-', DigitsValue(DigitPart(s)))
    ensures r.Some? ==> MinInt64 <= r.value <= MaxInt64
  {
    if s == [] then None
    else
      var digits := DigitPart(s);
      if digits == [] || !AllDigits(digits) then None
      else
        var v := Signed(s[0] == '-', DigitsValue(digits));
        if MinInt64 <= v <= MaxInt64 then Some(v) else None
  }

  /**
   * Atoi accepts every signed numeral in range, leading zeros and a '+' sign
   * included, and reads it as its value.
   */
  lemma AtoiReadsNumeral(sign: string, d: string)
    requires sign == "" || sign == "+" || sign == "-"
    requires d != [] && AllDigits(d)
    requires MinInt64 <= Signed(sign == "-", DigitsValue(d)) <= MaxInt64
    ensures Atoi(sign + d) == Some(Signed(sign == "-", DigitsValue(d)))
  {
    var s := sign + d;
    if sign == "" {
      assert s == d;
    } else {
      assert s[0] == sign[0] && s[1..] == d;
    }
  }

  /** A leading zero does not change the value of a digit string. */
  lemma {:induction false} LeadingZero(d: string)
    requires AllDigits(d)
    ensures AllDigits(['0'] + d) && DigitsValue(['0'] + d) == DigitsValue(d)
  {
    var z := ['0'] + d;
    if d != [] {
      assert z[..|z| - 1] == ['0'] + d[..|d| - 1];
      LeadingZero(d[..|d| - 1]);
    }
  }

  /** "08080" reads as "8080" does: a leading zero is accepted and ignored. */
  lemma AtoiLeadingZero(d: string)
    requires d != [] && AllDigits(d)
    ensures Atoi(['0'] + d) == Atoi(d)
  {
    LeadingZero(d);
    assert DigitPart(['0'] + d) == ['0'] + d;
  }

  /** "+8080" reads as "8080" does: a '+' sign is accepted and ignored. */
  lemma AtoiPlusSign(d: string)
    requires AllDigits(d)
    ensures Atoi("+" + d) == Atoi(d)
  {
    assert DigitPart("+" + d) == d;
  }

  /** "-0" is zero. */
  lemma AtoiNegativeZero()
    ensures Atoi("-0") == Some(0)
  {
    assert DigitPart("-0") == "0";
  }

  /** The decimal numeral of n, without leading zeros (Go's `strconv.Itoa` for n >= 0). */
  function FormatNat(n: nat): (s: string)
    ensures |s| > 0 && AllDigits(s)
    ensures DigitsValue(s) == n
    ensures |s| > 1 ==> s[0] != '0'
  {
    if n < 10 then [DigitChar(n)]
    else
      var s := FormatNat(n / 10) + [DigitChar(n % 10)];
      assert s[..|s| - 1] == FormatNat(n / 10);
      s
  }

  /** Go's `strconv.Itoa`. */
  function Itoa(n: int): (s: string)
    ensures |s| > 0
  {
    if n < 0 then "-" + FormatNat(-n) else FormatNat(n)
  }

  /** Atoi reads back every 64-bit integer that Itoa writes. */
  lemma AtoiItoa(n: int)
    requires MinInt64 <= n <= MaxInt64
    ensures Atoi(Itoa(n)) == Some(n)
  {
    if n < 0 {
      assert Itoa(n)[1..] == FormatNat(-n);
    }
  }

  /** A value that does not fit in 64 bits is rejected even though it is well formed. */
  lemma AtoiRejectsOverflow(n: int)
    requires n > MaxInt64
    ensures Atoi(FormatNat(n)) == None
  {
  }

  /** A character that is neither a sign in front nor a digit makes the whole string invalid. */
  lemma AtoiRejectsNonDigit(s: string, k: nat)
    requires k < |s| && !IsDigit(s[k])
    requires k == 0 ==> s[0] != '-' && s[0] != '+'
    ensures Atoi(s) == None
  {
  }
}
