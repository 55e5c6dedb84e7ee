/** Decimal rendering of numbers, as JavaScript's string concatenation
    `'' + n` does for integers of magnitude below 1e21 (larger ones are
    written with an exponent), and the facts about it that task ids and
    error messages rely on. */
module Numerals {

  predicate IsDigit(c: char) {
    '0' <= c <= '9'
  }

  predicate AllDigits(s: string) {
    forall i :: 0 <= i < |s| ==> IsDigit(s[i])
  }

  function DigitChar(d: nat): (c: char)
    requires d < 10
    ensures IsDigit(c) && c as int - '0' as int == d
  {
    (d + '0' as int) as char
  }

  /** The decimal digits of `n`, most significant first, without leading zeros. */
  function NatToString(n: nat): (s: string)
    ensures |s| >= 1 && AllDigits(s)
    ensures s[0] == '0' ==> n == 0
  {
    if n < 10 then [DigitChar(n)] else NatToString(n / 10) + [DigitChar(n % 10)]
  }

  /** JavaScript's rendering of an integer: a minus sign, then the digits
      of its magnitude. */
  function IntToString(n: int): (s: string)
    ensures |s| >= 1
    ensures n >= 0 ==> AllDigits(s) && ParseDigits(s) == n
    ensures n < 0 ==> s[0] == '-' && AllDigits(s[1..]) && ParseDigits(s[1..]) == -n
  {
    if n < 0 then
      ParseNatToString(-n);
      var s := "-" + NatToString(-n);
      assert s[1..] == NatToString(-n);
      s
    else
      ParseNatToString(n);
      NatToString(n)
  }

  /** Reads a string of decimal digits back as a number. */
  function ParseDigits(s: string): (n: nat)
    requires AllDigits(s)
    ensures s == [] ==> n == 0
  {
    if s == [] then 0
    else ParseDigits(s[..|s| - 1]) * 10 + (s[|s| - 1] as int - '0' as int)
  }

  /** Parsing undoes rendering. */
  lemma {:induction false} ParseNatToString(n: nat)
    ensures ParseDigits(NatToString(n)) == n
  {
    if n >= 10 {
      var s := NatToString(n);
      assert s[..|s| - 1] == NatToString(n / 10);
      ParseNatToString(n / 10);
    }
  }

  /** Distinct numbers render to distinct strings. */
  lemma NatToStringInjective(a: nat, b: nat)
    ensures NatToString(a) == NatToString(b) ==> a == b
  {
    ParseNatToString(a);
    ParseNatToString(b);
  }

  predicate StartsWith(s: string, prefix: string) {
    |prefix| <= |s| && s[..|prefix|] == prefix
  }
}
