/** Python's str() on an integer: the decimal form that goes into a request URI. */
module Decimal {

  predicate IsDigit(c: char) { '0' <= c <= '9' }

  predicate AllDigits(s: string) { forall i :: 0 <= i < |s| ==> IsDigit(s[i]) }

  function DigitChar(d: nat): (c: char)
    requires d < 10
    ensures IsDigit(c) && c as int - '0' as int == d
  {
    ('0' as int + d) as char
  }

  /** Decimal digits of n, most significant first, with no leading zero. */
  function NatToString(n: nat): (s: string)
    ensures 1 <= |s| && AllDigits(s)
    ensures s[0] == '0' <==> n == 0
    decreases n
  {
    if n < 10 then [DigitChar(n)] else NatToString(n / 10) + [DigitChar(n % 10)]
  }

  /** str(n): a minus sign for negative numbers, then the digits of |n|. */
  function IntToString(n: int): (s: string)
    ensures 1 <= |s|
    ensures s[0] == '-' <==> n < 0
    ensures forall i :: 0 <= i < |s| ==> IsDigit(s[i]) || (i == 0 && s[i] == '-')
  {
    if n < 0 then "-" + NatToString(-n) else NatToString(n)
  }

  /** The value a string of decimal digits denotes. */
  function ParseNat(s: string): nat
    requires AllDigits(s)
    decreases |s|
  {
    if s == [] then 0 else 10 * ParseNat(s[..|s| - 1]) + (s[|s| - 1] as int - '0' as int)
  }

  predicate IsIntLiteral(s: string) {
    && 1 <= |s|
    && if s[0] == '-' then 2 <= |s| && AllDigits(s[1..]) else AllDigits(s)
  }

  function ParseInt(s: string): int
    requires IsIntLiteral(s)
  {
    if s[0] == '-' then -(ParseNat(s[1..]) as int) else ParseNat(s)
  }

  lemma {:induction false} NatToStringRoundTrip(n: nat)
    ensures ParseNat(NatToString(n)) == n
  {
    if n >= 10 {
      var prefix := NatToString(n / 10);
      NatToStringRoundTrip(n / 10);
      var s := prefix + [DigitChar(n % 10)];
      assert s[..|s| - 1] == prefix;
    } else {
      assert NatToString(n)[..0] == [];
    }
  }

  /** The cycle and offset written into a URI read back as the numbers they came from. */
  lemma IntToStringRoundTrip(n: int)
    ensures IsIntLiteral(IntToString(n))
    ensures ParseInt(IntToString(n)) == n
  {
    if n < 0 {
      NatToStringRoundTrip(-n);
      assert IntToString(n)[1..] == NatToString(-n);
    } else {
      NatToStringRoundTrip(n);
    }
  }

  lemma IntToStringIsPlain(n: int)
    ensures '&' !in IntToString(n) && '=' !in IntToString(n) && '?' !in IntToString(n)
  {
    var s := IntToString(n);
    forall i | 0 <= i < |s| ensures s[i] != '&' && s[i] != '=' && s[i] != '?' {
    }
  }
}
