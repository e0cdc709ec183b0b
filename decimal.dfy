/**
 Python's `str` of an integer (the `{index}` in an f-string): optional '-',
 then decimal digits without leading zeros. The parser beside it is the
 partner that shows the rendering loses no information.
 */
module Decimal {

  predicate IsDigit(c: char)
  {
    '0' <= c <= '9'
  }

  predicate AllDigits(s: string)
  {
    forall i | 0 <= i < |s| :: IsDigit(s[i])
  }

  function DigitChar(d: nat): (c: char)
    requires d < 10
    ensures IsDigit(c) && c as int - '0' as int == d
  {
    "0123456789"[d]
  }

  /** Decimal digits of `n`, most significant first, no leading zero. */
  function NatToDecimal(n: nat): (r: string)
    ensures r != [] && AllDigits(r)
    ensures |r| > 1 ==> r[0] != '0'
  {
    if n < 10 then [DigitChar(n)] else NatToDecimal(n / 10) + [DigitChar(n % 10)]
  }

  /** `str(i)` for a Python int. */
  function IntToDecimal(i: int): (r: string)
    ensures r != [] && (r[0] == '-' <==> i < 0)
    ensures AllDigits(if i < 0 then r[1..] else r)
  {
    if i < 0 then "-" + NatToDecimal(-i) else NatToDecimal(i)
  }

  function ParseNat(s: string): nat
    requires AllDigits(s)
  {
    if s == [] then 0 else ParseNat(s[..|s| - 1]) * 10 + (s[|s| - 1] as int - '0' as int)
  }

  function ParseInt(s: string): int
    requires s != [] && AllDigits(if s[0] == '-' then s[1..] else s)
  {
    if s[0] == '-' then -(ParseNat(s[1..]) as int) else ParseNat(s)
  }

  lemma {:induction false} ParseNatToDecimal(n: nat)
    ensures ParseNat(NatToDecimal(n)) == n
  {
    if n >= 10 {
      ParseNatToDecimal(n / 10);
      var s := NatToDecimal(n);
      assert s[..|s| - 1] == NatToDecimal(n / 10);
    }
  }

  /** A leading '-' negates the value of the digits after it. */
  lemma ParseIntOfSigned(digits: string)
    requires digits != [] && AllDigits(digits)
    ensures ParseInt("-" + digits) == -(ParseNat(digits) as int)
  {
    assert ("-" + digits)[1..] == digits;
  }

  /** Parsing undoes `str`: every int is recovered from its text. */
  lemma {:induction false} ParseIntToDecimal(i: int)
    ensures ParseInt(IntToDecimal(i)) == i
  {
    if i < 0 {
      var digits := NatToDecimal(-i);
      calc {
        ParseInt(IntToDecimal(i));
        { assert IntToDecimal(i) == "-" + digits; }
        ParseInt("-" + digits);
        { ParseIntOfSigned(digits); }
        -(ParseNat(digits) as int);
        { ParseNatToDecimal(-i); }
        i;
      }
    } else {
      calc {
        ParseInt(IntToDecimal(i));
        { assert IntToDecimal(i) == NatToDecimal(i); }
        ParseNat(NatToDecimal(i));
        { ParseNatToDecimal(i); }
        i;
      }
    }
  }

  /** Distinct integers are rendered as distinct texts. */
  lemma IntToDecimalInjective(i: int, j: int)
    requires IntToDecimal(i) == IntToDecimal(j)
    ensures i == j
  {
    ParseIntToDecimal(i);
    ParseIntToDecimal(j);
  }
}
