/**
 * JavaScript's `parseFloat` on strings, as far as the client's checks depend on
 * it: the longest decimal-literal prefix after leading white space, an optional
 * sign, "Infinity", and `NaN` when no digits are found. A finite result is kept
 * exactly, as its sign, its decimal digits and a power of ten.
 */
module JsNumber {
  import opened Text

  /** A finite value is `(negative ? -1 : 1) * digits * 10^exponent`. */
  datatype Number =
    | Finite(negative: bool, digits: nat, exponent: int)
    | PositiveInfinity
    | NegativeInfinity
    | NaN

  function Pow10(n: nat): (r: nat)
    ensures r >= 1
  {
    if n == 0 then 1 else 10 * Pow10(n - 1)
  }

  /** The real a finite number stands for. */
  function Value(x: Number): real
    requires x.Finite?
  {
    var magnitude := if x.exponent >= 0 then (x.digits * Pow10(x.exponent)) as real
      else x.digits as real / Pow10(-x.exponent) as real;
    if x.negative then -magnitude else magnitude
  }

  function Negate(x: Number): Number {
    match x
    case Finite(negative, digits, exponent) => Finite(!negative, digits, exponent)
    case PositiveInfinity => NegativeInfinity
    case NegativeInfinity => PositiveInfinity
    case NaN => NaN
  }

  /** `parseFloat(s)`. */
  function ParseFloat(s: string): Number {
    var t := TrimStart(s);
    if StartsWith(t, "-") then Negate(ParseUnsigned(t[1..]))
    else if StartsWith(t, "+") then ParseUnsigned(t[1..])
    else ParseUnsigned(t)
  }

  /** An unsigned literal: "Infinity", or digits with an optional fraction and exponent. */
  function ParseUnsigned(t: string): Number {
    if StartsWith(t, "Infinity") then PositiveInfinity
    else
      var i := LeadingDigits(t);
      var rest := t[i..];
      var f := if StartsWith(rest, ".") then LeadingDigits(rest[1..]) else 0;
      if i == 0 && f == 0 then NaN
      else
        var fraction := if f > 0 then rest[1..][..f] else "";
        var afterFraction := if StartsWith(rest, ".") then rest[1 + f..] else rest;
        assert AllDigits(t[..i] + fraction) by {
          assert forall k :: 0 <= k < |t[..i] + fraction| ==>
            (t[..i] + fraction)[k] == if k < i then t[..i][k] else fraction[k - i];
        }
        Finite(false, DigitsValue(t[..i] + fraction), Exponent(afterFraction) - f)
  }

  /** The exponent part `e[+-]digits`, or 0 when the text does not start with a complete one. */
  function Exponent(t: string): int {
    if |t| >= 2 && (t[0] == 'e' || t[0] == 'E') then
      var signed := t[1] == '-' || t[1] == '+';
      var digits := if signed then t[2..] else t[1..];
      var n := LeadingDigits(digits);
      if n == 0 then 0
      else if t[1] == '-' then -(DigitsValue(digits[..n]) as int)
      else DigitsValue(digits[..n])
    else 0
  }

  /** The test `x <= 0`; false for NaN. Negative zero is at most zero. */
  predicate AtMostZero(x: Number) {
    match x
    case Finite(negative, digits, _) => negative || digits == 0
    case NegativeInfinity => true
    case PositiveInfinity => false
    case NaN => false
  }

  /** A run of digits is an unsigned literal for the whole number it spells. */
  lemma DigitsParse(s: string)
    requires s != [] && AllDigits(s)
    ensures ParseUnsigned(s) == Finite(false, DigitsValue(s), 0)
  {
    assert !StartsWith(s, "Infinity") by {
      if |s| >= 8 { assert s[..8][0] == s[0]; }
    }
    assert LeadingDigits(s) == |s|;
    assert s[..|s|] == s && s[|s|..] == [];
    assert s[..|s|] + "" == s;
  }

  /** A run of digits parses to the whole number it spells, and with a minus sign before it to its negation. */
  lemma WholeNumberParses(s: string)
    requires s != [] && AllDigits(s)
    ensures ParseFloat(s) == Finite(false, DigitsValue(s), 0)
    ensures ParseFloat("-" + s) == Finite(true, DigitsValue(s), 0)
  {
    DigitsParse(s);
    UnsignedNotSigned(s);
    var m := "-" + s;
    NoLeadingSpace(m);
    assert StartsWith(m, "-") && m[1..] == s;
  }

  /** A text starting with a digit keeps its first character under `trimStart` and has no sign. */
  lemma UnsignedNotSigned(s: string)
    requires s != [] && '0' <= s[0] <= '9'
    ensures TrimStart(s) == s && !StartsWith(s, "-") && !StartsWith(s, "+")
  {
    NoLeadingSpace(s);
  }

  /** `parseFloat(String(n))` gives `n` back. */
  lemma DecimalParses(n: nat)
    ensures ParseFloat(NatToDecimal(n)) == Finite(false, n, 0)
  {
    DecimalRoundTrip(n);
    WholeNumberParses(NatToDecimal(n));
  }

  /** An unsigned literal that starts with neither a digit, a point nor "Infinity" is NaN. */
  lemma NoDigitsIsNaN(t: string)
    requires t != [] && !('0' <= t[0] <= '9') && t[0] != '.' && t[0] != 'I'
    ensures ParseUnsigned(t) == NaN
  {
    assert !StartsWith(t, "Infinity") by {
      if |t| >= 8 { assert t[..8][0] == t[0]; }
    }
    assert t[0..] == t;
  }

  /** A text starting with a lower-case letter parses to NaN. */
  lemma LetterStartIsNaN(s: string)
    requires s != [] && 'a' <= s[0] <= 'z'
    ensures ParseFloat(s) == NaN
  {
    assert TrimStart(s) == s;
    assert !StartsWith(s, "-") && !StartsWith(s, "+");
    NoDigitsIsNaN(s);
  }

  /** The test `x <= 0` on a finite number agrees with the value it stands for. */
  lemma AtMostZeroMeansValue(x: Number)
    requires x.Finite?
    ensures AtMostZero(x) <==> Value(x) <= 0.0
  {
    if x.digits > 0 {
      if x.exponent >= 0 {
        assert x.digits * Pow10(x.exponent) >= 1;
      } else {
        assert x.digits as real / Pow10(-x.exponent) as real > 0.0;
      }
    }
  }

  /** NaN is never at most zero, so a check `parseFloat(s) <= 0` lets any unparseable text through. */
  lemma NaNPassesPositivityCheck()
    ensures !AtMostZero(NaN)
  {
  }
}
