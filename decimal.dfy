/** Decimal digit strings: `parseInt(s, 10)` on strings made only of
    digits, and the inverse that writes a natural number in decimal. */
module Decimal {

  predicate IsDigit(c: char) { '0' <= c <= '9' }

  /** Every character is a decimal digit (the empty string included). */
  predicate AllDigits(s: string) {
    forall i :: 0 <= i < |s| ==> IsDigit(s[i])
  }

  /** A non-empty string of decimal digits and nothing else. On these,
      `parseInt(s, 10)` reads every character, and the result is the value
      of the digits. `parseInt` also accepts other strings: it skips leading
      whitespace, takes a sign, and stops at the first non-digit. Those
      strings are not modelled. */
  predicate IsDigits(s: string) {
    |s| > 0 && AllDigits(s)
  }

  function DigitValue(c: char): (d: nat)
    requires IsDigit(c)
    ensures d < 10
  {
    c as int - '0' as int
  }

  function DigitChar(d: nat): (c: char)
    requires d < 10
    ensures IsDigit(c) && DigitValue(c) == d
  {
    ('0' as int + d) as char
  }

  function Pow10(k: nat): (p: nat)
    ensures p >= 1
  {
    if k == 0 then 1 else 10 * Pow10(k - 1)
  }

  /** `parseInt(s, 10)` on a non-empty digit string: the value of its
      digits, most significant first. It is below 10^|s|. The empty string
      is only the base of the recursion: `parseInt("", 10)` is NaN, and
      callers that model `parseInt` require `IsDigits`. */
  function ParseInt(s: string): (n: nat)
    requires AllDigits(s)
    ensures n < Pow10(|s|)
    decreases |s|
  {
    if s == [] then 0
    else 10 * ParseInt(s[..|s| - 1]) + DigitValue(s[|s| - 1])
  }

  /** The shortest decimal spelling of `n`: digits only, and no leading
      zero unless `n` is 0. */
  function FormatDecimal(n: nat): (s: string)
    ensures IsDigits(s)
    ensures s[0] == '0' ==> n == 0 && s == "0"
    decreases n
  {
    if n < 10 then [DigitChar(n)] else FormatDecimal(n / 10) + [DigitChar(n % 10)]
  }

  /** Reading back what `FormatDecimal` wrote gives the number again. */
  lemma {:induction false} ParseFormat(n: nat)
    ensures ParseInt(FormatDecimal(n)) == n
    decreases n
  {
    if n >= 10 {
      var s := FormatDecimal(n);
      var prefix := FormatDecimal(n / 10);
      assert s == prefix + [DigitChar(n % 10)];
      assert s[..|s| - 1] == prefix;
      ParseFormat(n / 10);
    }
  }

  /** A leading zero does not change the value: "007" and "7" parse alike,
      and so do "00" and "0". */
  lemma {:induction false} LeadingZero(s: string)
    requires AllDigits(s)
    ensures AllDigits("0" + s) && ParseInt("0" + s) == ParseInt(s)
    decreases |s|
  {
    var z := "0" + s;
    if s == [] {
      assert z[..0] == [];
    } else {
      var init := s[..|s| - 1];
      assert z[..|z| - 1] == "0" + init;
      assert z[|z| - 1] == s[|s| - 1];
      LeadingZero(init);
    }
  }
}
