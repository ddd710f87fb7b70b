/** Decimal rendering of integers, as template literals print a whole number (`${n}`). */
module Decimal {

  function DigitChar(d: nat): (c: char)
    requires d < 10
    ensures '0' <= c <= '9'
  {
    "0123456789"[d]
  }

  function DigitValue(c: char): nat
    requires '0' <= c <= '9'
  {
    (c as int - '0' as int) as nat
  }

  predicate AllDigits(s: string) {
    forall i :: 0 <= i < |s| ==> '0' <= s[i] <= '9'
  }

  /** The decimal digits of `n`, most significant first, without leading zeros. */
  function NatToString(n: nat): (s: string)
    ensures |s| >= 1 && AllDigits(s)
    ensures |s| > 1 ==> s[0] != '0'
  {
    if n < 10 then [DigitChar(n)] else NatToString(n / 10) + [DigitChar(n % 10)]
  }

  /** The decimal text of `i`, with a leading '-' when it is negative. */
  function IntToString(i: int): (s: string)
    ensures |s| >= 1
    ensures (s[0] == '-') <==> i < 0
  {
    if i < 0 then "-" + NatToString(-i) else NatToString(i)
  }

  /** Reads a string of decimal digits back as a number. */
  function ParseNat(s: string): nat
    requires AllDigits(s)
  {
    if s == [] then 0 else ParseNat(s[..|s| - 1]) * 10 + DigitValue(s[|s| - 1])
  }

  function ParseInt(s: string): int
    requires |s| >= 1
    requires s[0] == '-' ==> AllDigits(s[1..])
    requires s[0] != '-' ==> AllDigits(s)
  {
    if s[0] == '-' then var n: int := ParseNat(s[1..]); -n else ParseNat(s)
  }

  lemma {:induction false} NatRoundTrip(n: nat)
    ensures ParseNat(NatToString(n)) == n
  {
    if n >= 10 {
      var s := NatToString(n);
      assert s[..|s| - 1] == NatToString(n / 10);
      NatRoundTrip(n / 10);
      assert DigitValue(DigitChar(n % 10)) == n % 10 by {
        var d := n % 10;
        assert "0123456789"[d] as int == '0' as int + d;
      }
    } else {
      assert "0123456789"[n] as int == '0' as int + n;
    }
  }

  /** A negative number's text is '-' and the digits of its magnitude, read back as the number. */
  lemma NegativeRoundTrip(n: nat)
    requires n > 0
    ensures ParseInt(IntToString(-(n as int))) == -(n as int)
  {
    var s := IntToString(-(n as int));
    var t := NatToString(n);
    assert s == "-" + t;
    assert s[1..] == t;
    NatRoundTrip(n);
  }

  /** The rendered number is read back exactly: the text of a bucket names its count. */
  lemma IntRoundTrip(i: int)
    ensures ParseInt(IntToString(i)) == i
  {
    if i < 0 {
      NegativeRoundTrip(-i);
    } else {
      NatRoundTrip(i);
    }
  }
}
