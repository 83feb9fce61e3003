/**
 * Decimal text of numbers: how a Number node reads the lexeme it is built
 * from, and the formatting of natural numbers that reading inverts.
 */
module DecimalText {

  predicate IsDigit(c: char) {
    '0' <= c <= '9'
  }

  predicate AllDigits(s: string) {
    forall k :: 0 <= k < |s| ==> IsDigit(s[k])
  }

  function DigitValue(c: char): (d: nat)
    requires IsDigit(c)
    ensures d < 10
  {
    c as int - '0' as int
  }

  function DigitChar(d: nat): (c: char)
    requires d < 10
    ensures IsDigit(c) && DigitValue(c) == d
  {
    ('0' as int + d) as char
  }

  /** Length of the run of decimal digits that starts `s`. */
  function DigitRun(s: string): (n: nat)
    ensures n <= |s|
    ensures AllDigits(s[..n])
    ensures n < |s| ==> !IsDigit(s[n])
  {
    if s != [] && IsDigit(s[0]) then
      var n := 1 + DigitRun(s[1..]);
      assert s[..n] == [s[0]] + s[1..][..n - 1];
      n
    else
      0
  }

  /** Value of a digit string, most significant digit first; "" reads as 0. */
  function NatValue(s: string): nat
    requires AllDigits(s)
  {
    if s == [] then 0 else 10 * NatValue(s[..|s| - 1]) + DigitValue(s[|s| - 1])
  }

  function Pow10(n: nat): (p: nat)
    ensures p >= 1
  {
    if n == 0 then 1 else 10 * Pow10(n - 1)
  }

  /**
   * The number an unsigned decimal text denotes: the leading digits, then,
   * after a single '.', the digits of the fraction. Reading stops at the
   * first other character, and text that starts with no digit reads as 0.
   * Unlike C's `atof`, no white space, sign or exponent is read.
   */
  function ReadDecimal(s: string): (r: real)
    ensures r >= 0.0
    ensures AllDigits(s) ==> r == NatValue(s) as real
  {
    var i := DigitRun(s);
    assert AllDigits(s) ==> i == |s| && s[..i] == s;
    var whole := NatValue(s[..i]);
    if i < |s| && s[i] == '.' then
      var rest := s[i + 1..];
      whole as real + Fraction(rest[..DigitRun(rest)])
    else
      whole as real
  }

  /** Value of the digits written after a decimal point. */
  function Fraction(digits: string): (r: real)
    requires AllDigits(digits)
    ensures 0.0 <= r
  {
    var num, den := NatValue(digits) as real, Pow10(|digits|) as real;
    assert 0.0 <= num && 1.0 <= den;
    num / den
  }

  /** Decimal formatting of a natural number, without leading zeros. */
  function NatText(n: nat): (s: string)
    ensures 1 <= |s| && AllDigits(s)
    ensures |s| > 1 ==> s[0] != '0'
  {
    if n < 10 then [DigitChar(n)] else NatText(n / 10) + [DigitChar(n % 10)]
  }

  /** Formatting a natural number and reading the digits back gives the number. */
  lemma {:induction false} NatTextRoundTrip(n: nat)
    ensures NatValue(NatText(n)) == n
  {
    if n >= 10 {
      var s := NatText(n);
      assert s[..|s| - 1] == NatText(n / 10);
      NatTextRoundTrip(n / 10);
    }
  }

  /** A Number node built from the text of a natural number holds that number. */
  lemma ReadDecimalOfNatText(n: nat)
    ensures ReadDecimal(NatText(n)) == n as real
  {
    NatTextRoundTrip(n);
  }
}
