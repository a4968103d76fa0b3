/**
 * `num` (kaco2pvo.py): a field becomes a Python int when it is an integer literal and a float
 * otherwise; text that is neither raises ValueError, modelled as None.
 */
module Numbers {
  import opened Common
  import opened Text

  /** A value returned by `num`: an int or a float, kept apart as Python keeps them. */
  datatype Number = IntNum(i: int) | FloatNum(r: real)

  /** The number as a quantity, for the arithmetic that mixes ints and floats. */
  function Value(n: Number): real
  {
    match n
    case IntNum(i) => i as real
    case FloatNum(r) => r
  }

  predicate IsDigit(c: char)
  {
    '0' <= c <= '9'
  }

  predicate AllDigits(s: string)
  {
    forall i :: 0 <= i < |s| ==> IsDigit(s[i])
  }

  function DigitValue(c: char): nat
    requires IsDigit(c)
  {
    c as int - '0' as int
  }

  function DigitChar(d: int): (c: char)
    requires 0 <= d < 10
    ensures IsDigit(c) && DigitValue(c) == d
  {
    ('0' as int + d) as char
  }

  /** The value of a string of decimal digits. */
  function DigitsValue(s: string): nat
    requires AllDigits(s)
  {
    if s == [] then 0 else 10 * DigitsValue(s[..|s| - 1]) + DigitValue(s[|s| - 1])
  }

  /** The value of the digits after a decimal point: "25" is 0.25. */
  function FractionValue(s: string): real
    requires AllDigits(s)
  {
    if s == [] then 0.0 else (DigitValue(s[0]) as real + FractionValue(s[1..])) / 10.0
  }

  function Negate(n: Number): Number
  {
    match n
    case IntNum(i) => IntNum(-i)
    case FloatNum(r) => FloatNum(-r)
  }

  /** An unsigned literal: digits (an int), or digits around one '.' with a digit somewhere (a float). */
  function ParseUnsigned(body: string): Option<Number>
  {
    if body != [] && AllDigits(body) then Some(IntNum(DigitsValue(body)))
    else
      var k := IndexOf(body, '.');
      if k < |body| && |body| > 1 && AllDigits(body[..k]) && AllDigits(body[k + 1..]) then
        Some(FloatNum(DigitsValue(body[..k]) as real + FractionValue(body[k + 1..])))
      else None
  }

  /**
   * `num(s)`: `int(s)` when that succeeds, else `float(s)`; None stands for the ValueError
   * `float` raises. An int comes only from text without a '.', a float only from text with one.
   */
  function ParseNum(s: string): (r: Option<Number>)
    ensures r.Some? && r.value.IntNum? ==> '.' !in s
    ensures r.Some? && r.value.FloatNum? ==> '.' in s
    ensures r.Some? ==> s != []
  {
    if s != [] && (s[0] == '+' || s[0] == '-') then
      match ParseUnsigned(s[1..])
      case None => None
      case Some(n) => Some(if s[0] == '-' then Negate(n) else n)
    else
      ParseUnsigned(s)
  }

  /** Decimal digits of a natural number, as Python's `str` writes them. */
  function NatToString(n: nat): (s: string)
    ensures s != [] && AllDigits(s)
    ensures '.' !in s
  {
    if n < 10 then [DigitChar(n)] else NatToString(n / 10) + [DigitChar(n % 10)]
  }

  /** Python's `str(i)` for an int. */
  function IntToString(i: int): string
  {
    if i < 0 then "-" + NatToString(-i) else NatToString(i)
  }

  lemma {:induction false} NatToStringValue(n: nat)
    ensures DigitsValue(NatToString(n)) == n
  {
    var s := NatToString(n);
    if n >= 10 {
      NatToStringValue(n / 10);
      assert s[..|s| - 1] == NatToString(n / 10);
    }
  }

  /** Writing an int and reading it back with `num` gives the same int, still an int. */
  lemma ParseIntRoundTrip(i: int)
    ensures ParseNum(IntToString(i)) == Some(IntNum(i))
  {
    if i < 0 {
      var s := IntToString(i);
      NatToStringValue(-i);
      assert s[1..] == NatToString(-i);
    } else {
      NatToStringValue(i);
    }
  }

  /**
   * A decimal literal reads back as a float: text made of the digits `a`, a '.', then the digits
   * `b`, with a digit somewhere, is the float a + 0.b.
   */
  lemma ParseDecimal(s: string, a: string, b: string)
    requires AllDigits(a) && AllDigits(b) && |a| + |b| > 0
    requires |s| == |a| + 1 + |b| && s[..|a|] == a && s[|a|] == '.' && s[|a| + 1..] == b
    ensures ParseNum(s) == Some(FloatNum(DigitsValue(a) as real + FractionValue(b)))
  {
    var k := |a|;
    forall j | 0 <= j < k
      ensures s[j] != '.'
    {
      assert s[j] == s[..k][j];
      assert IsDigit(a[j]);
    }
    assert IndexOf(s, '.') == k;
    ParseUnsignedFloat(s, k);
    assert s[0] != '+' && s[0] != '-' by {
      if k > 0 {
        assert s[0] == s[..k][0];
        assert IsDigit(a[0]);
      }
    }
    ParseUnsignedOnly(s);
  }

  /** Text that does not start with a sign is read by the unsigned rule alone. */
  lemma ParseUnsignedOnly(s: string)
    requires s != [] && s[0] != '+' && s[0] != '-'
    ensures ParseNum(s) == ParseUnsigned(s)
  {
  }

  /** Text whose first '.' has digits on both sides, with a digit somewhere, is a float. */
  lemma ParseUnsignedFloat(s: string, k: nat)
    requires k == IndexOf(s, '.') && k < |s| && |s| > 1
    requires AllDigits(s[..k]) && AllDigits(s[k + 1..])
    ensures ParseUnsigned(s) == Some(FloatNum(DigitsValue(s[..k]) as real + FractionValue(s[k + 1..])))
  {
    var lead := s[..k];
    var frac := s[k + 1..];
    assert !AllDigits(s) by { assert !IsDigit(s[k]); }
    assert k < |s| && |s| > 1 && AllDigits(lead) && AllDigits(frac);
  }
}
