/** Values shared by the three parts of the service: optional JSON values,
    JavaScript truthiness of strings, and the decimal rendering that a
    template string gives an integer. */
module Comum {

  /** A JSON field that may be absent (`undefined`) or present. Where the
      source only tests a field's truthiness, a `null` behaves like None. */
  datatype Option<+T> = None | Some(value: T)

  /** JavaScript truthiness of an optional string: undefined, null and the
      empty string are falsy, every other string is truthy. */
  predicate Truthy(s: Option<string>) {
    s.Some? && s.value != ""
  }

  predicate IsDigit(c: char) {
    '0' <= c <= '9'
  }

  predicate AllDigits(s: string) {
    forall i | 0 <= i < |s| :: IsDigit(s[i])
  }

  function DigitChar(d: nat): (c: char)
    requires d < 10
    ensures IsDigit(c) && c as int - '0' as int == d
  {
    (d + '0' as int) as char
  }

  function DigitValue(c: char): (d: nat)
    requires IsDigit(c)
    ensures d < 10 && DigitChar(d) == c
  {
    c as int - '0' as int
  }

  /** Decimal rendering of a natural number, as `${n}` renders a
      non-negative integral JavaScript number. */
  function NatToString(n: nat): (r: string)
    ensures |r| > 0
    decreases n
  {
    if n < 10 then [DigitChar(n)] else NatToString(n / 10) + [DigitChar(n % 10)]
  }

  /** The rendering consists of decimal digits, without a leading zero. */
  lemma {:induction false} NatToStringDigits(n: nat)
    ensures var r := NatToString(n);
      AllDigits(r) && (|r| > 1 ==> r[0] != '0') && (n >= 10 <==> |r| > 1)
    decreases n
  {
    if n >= 10 {
      NatToStringDigits(n / 10);
    }
  }

  /** Decimal rendering of an integer: a minus sign before the digits of a
      negative one. */
  function IntToString(n: int): (r: string)
    ensures |r| > 0
  {
    if n < 0 then "-" + NatToString(-n) else NatToString(n)
  }

  /** The rendering holds only digits and the sign, which is there exactly
      for a negative integer. */
  lemma IntToStringShape(n: int)
    ensures var r := IntToString(n);
      && (forall i | 0 <= i < |r| :: r[i] == '-' || IsDigit(r[i]))
      && ((n < 0) <==> (r[0] == '-'))
  {
    if n < 0 {
      NatToStringDigits(-n);
      var r := IntToString(n);
      assert r[1..] == NatToString(-n);
      assert forall i | 1 <= i < |r| :: r[i] == NatToString(-n)[i - 1];
    } else {
      NatToStringDigits(n);
    }
  }

  /** The number a string of decimal digits denotes. */
  function ParseNat(s: string): nat
    requires AllDigits(s)
  {
    if s == [] then 0 else 10 * ParseNat(s[..|s| - 1]) + DigitValue(s[|s| - 1])
  }

  /** Reading back a rendered natural number gives the number. */
  lemma {:induction false} ParseNatToString(n: nat)
    ensures AllDigits(NatToString(n)) && ParseNat(NatToString(n)) == n
    decreases n
  {
    var r := NatToString(n);
    NatToStringDigits(n);
    if n >= 10 {
      NatToStringDigits(n / 10);
      ParseNatToString(n / 10);
      assert r[..|r| - 1] == NatToString(n / 10);
    }
  }

  /** The rendering is injective: different numbers render differently. */
  lemma IntToStringInjective(m: int, n: int)
    requires IntToString(m) == IntToString(n)
    ensures m == n
  {
    IntToStringShape(m);
    IntToStringShape(n);
    if m < 0 {
      assert NatToString(-m) == IntToString(m)[1..] == NatToString(-n);
      ParseNatToString(-m);
      ParseNatToString(-n);
    } else {
      ParseNatToString(m);
      ParseNatToString(n);
    }
  }
}
