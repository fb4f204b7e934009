/** Small value types shared by the whole model: optional values, results
    with an error side, and the decimal rendering of a JavaScript number
    that holds a natural number below 10^21 (what `toString()` and template
    literals produce for ports). */
module Base {

  datatype Option<+T> = None | Some(value: T)

  datatype Result<+T, +E> = Ok(value: T) | Err(error: E)

  /** The character of a decimal digit. */
  function DigitChar(d: nat): (c: char)
    requires d < 10
    ensures '0' <= c <= '9'
    ensures c as int - '0' as int == d
  {
    "0123456789"[d]
  }

  /** The number a string of decimal digits denotes, most significant
      digit first. */
  function DigitsValue(s: string): nat
    requires forall i :: 0 <= i < |s| ==> '0' <= s[i] <= '9'
  {
    if s == [] then 0
    else DigitsValue(s[..|s| - 1]) * 10 + (s[|s| - 1] as int - '0' as int)
  }

  /** `n.toString()` for a non-negative integer below 10^21 (JavaScript
      writes larger numbers in exponent notation): most significant digit
      first, no leading zeros, no sign. */
  function Decimal(n: nat): (s: string)
    ensures 1 <= |s|
    ensures forall i :: 0 <= i < |s| ==> '0' <= s[i] <= '9'
    ensures DigitsValue(s) == n
    ensures s[0] == '0' <==> n == 0
    ensures |s| == 1 <==> n < 10
  {
    if n < 10 then [DigitChar(n)]
    else
      var s := Decimal(n / 10) + [DigitChar(n % 10)];
      assert s[..|s| - 1] == Decimal(n / 10);
      s
  }

  /** Distinct numbers are rendered as distinct strings: the rendering
      reads back to the number. */
  lemma DecimalInjective(n: nat, m: nat)
    requires Decimal(n) == Decimal(m)
    ensures n == m
  {
    assert n == DigitsValue(Decimal(n));
  }

  /** Prefixing a fixed tag keeps the rendering injective: the ids built
      as `tag + n` for different numbers never collide. */
  lemma TaggedDecimalInjective(tag: string, n: nat, m: nat)
    requires tag + Decimal(n) == tag + Decimal(m)
    ensures n == m
  {
    assert Decimal(n) == (tag + Decimal(n))[|tag|..];
    assert Decimal(m) == (tag + Decimal(m))[|tag|..];
    DecimalInjective(n, m);
  }
}
