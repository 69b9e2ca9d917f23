/** The two integer/text conversions the library relies on: `std::to_string`
    for `int` (used to turn integer channels, line numbers and PWM ids into
    names and paths) and C `atoi` (used by the string overloads of the
    edge-event calls).  Integers are unbounded here; `atoi` on an out-of-range
    numeral is undefined in C and is not modelled. */
module Conversions {
  import opened PythonFunctions

  predicate IsDigit(c: char)
  {
    '0' <= c <= '9'
  }

  function DigitChar(d: nat): (c: char)
    requires d < 10
    ensures IsDigit(c) && c as int - '0' as int == d
  {
    ('0' as int + d) as char
  }

  function DigitValue(c: char): nat
    requires IsDigit(c)
  {
    c as int - '0' as int
  }

  /** Decimal numeral of `n`: most significant digit first, no leading zero. */
  function NatToString(n: nat): (r: string)
    ensures |r| >= 1
    ensures forall i :: 0 <= i < |r| ==> IsDigit(r[i])
    ensures r[0] == '0' ==> n == 0
  {
    if n < 10 then [DigitChar(n)] else NatToString(n / 10) + [DigitChar(n % 10)]
  }

  /** `std::to_string(n)`: a '-' and the numeral of `-n` for a negative `n`. */
  function IntToString(n: int): (r: string)
    ensures |r| >= 1
  {
    if n < 0 then "-" + NatToString(-n) else NatToString(n)
  }

  /** Value of a numeral, most significant digit first. */
  function NumeralValue(s: string): nat
    requires forall i :: 0 <= i < |s| ==> IsDigit(s[i])
  {
    if s == [] then 0 else 10 * NumeralValue(s[..|s| - 1]) + DigitValue(s[|s| - 1])
  }

  /** Length of the longest prefix of `s` made of decimal digits. */
  function LeadingDigits(s: string): (n: nat)
    ensures n <= |s|
    ensures forall k :: 0 <= k < n ==> IsDigit(s[k])
    ensures n < |s| ==> !IsDigit(s[n])
  {
    if s == [] || !IsDigit(s[0]) then 0 else 1 + LeadingDigits(s[1..])
  }

  /** Value of the digits `s` starts with (0 when it starts with none). */
  function PrefixValue(s: string): nat
  {
    NumeralValue(s[..LeadingDigits(s)])
  }

  /** C `atoi(s)`: skips leading white space, reads an optional sign and then
      as many decimal digits as follow; 0 when there are none. */
  function Atoi(s: string): (r: int)
    ensures (forall k :: 0 <= k < |s| ==> !IsDigit(s[k])) ==> r == 0
  {
    var t := s[LeadingSpaces(s)..];
    var r: int := if t != [] && t[0] == '-' then -(PrefixValue(t[1..]) as int)
             else if t != [] && t[0] == '+' then PrefixValue(t[1..])
             else PrefixValue(t);
    assert (forall k :: 0 <= k < |s| ==> !IsDigit(s[k])) ==> r == 0 by {
      if forall k :: 0 <= k < |s| ==> !IsDigit(s[k]) {
        assert forall k :: 0 <= k < |t| ==> t[k] == s[LeadingSpaces(s) + k];
        if |t| > 1 {
          assert t[1..][0] == t[1];
        }
        assert LeadingDigits(t) == 0;
      }
    }
    r
  }

  lemma {:induction false} NumeralValueOfNatToString(n: nat)
    ensures NumeralValue(NatToString(n)) == n
  {
    var r := NatToString(n);
    if n < 10 {
      assert r[..|r| - 1] == [];
    } else {
      NumeralValueOfNatToString(n / 10);
      assert r[..|r| - 1] == NatToString(n / 10);
    }
  }

  lemma AllDigitsLeading(s: string)
    requires forall i :: 0 <= i < |s| ==> IsDigit(s[i])
    ensures LeadingDigits(s) == |s|
  {
  }

  /** Reading back what `to_string` wrote gives the number: `atoi` is a left
      inverse of `to_string`, so `to_string` is injective. */
  lemma AtoiOfIntToString(n: int)
    ensures Atoi(IntToString(n)) == n
  {
    var s := IntToString(n);
    assert LeadingSpaces(s) == 0;
    assert s[0..] == s;
    var m := if n < 0 then -n else n;
    var digits := NatToString(m);
    NumeralValueOfNatToString(m);
    AllDigitsLeading(digits);
    assert digits[..|digits|] == digits;
    if n < 0 {
      assert s[1..] == digits;
    }
  }

  lemma IntToStringInjective(a: int, b: int)
    ensures IntToString(a) == IntToString(b) ==> a == b
  {
    AtoiOfIntToString(a);
    AtoiOfIntToString(b);
  }

  /** The numeral of a non-negative number holds no '-'; that of a negative
      one starts with '-'. */
  lemma IntToStringSign(n: int)
    ensures n < 0 <==> IntToString(n)[0] == '-'
  {
  }
}
