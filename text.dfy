/**
 * String operations the programs use, written out over `seq<char>`:
 * JavaScript's `startsWith`, `includes`, `toLowerCase` and `trim`, and the
 * decimal rendering and reading of whole numbers.
 */
module Text {

  /** `s.startsWith(prefix)`. */
  predicate StartsWith(s: string, prefix: string) {
    |prefix| <= |s| && s[..|prefix|] == prefix
  }

  /** A string starts with each of its prefixes. */
  lemma StartsWithConcat(prefix: string, rest: string)
    ensures StartsWith(prefix + rest, prefix)
  {
    assert (prefix + rest)[..|prefix|] == prefix;
  }

  /** `s.includes(sub)`: `sub` occurs in `s` at some offset (the empty string occurs everywhere). */
  predicate Includes(s: string, sub: string)
    decreases |s|
  {
    StartsWith(s, sub) || (|s| > 0 && Includes(s[1..], sub))
  }

  /** An occurrence of `sub` in `s` at offset `k`. */
  ghost predicate OccursAt(s: string, sub: string, k: int) {
    0 <= k && k + |sub| <= |s| && s[k..k + |sub|] == sub
  }

  /** `Includes` is exactly "occurs at some offset". */
  lemma {:induction false} IncludesIffOccurs(s: string, sub: string)
    ensures Includes(s, sub) <==> exists k :: OccursAt(s, sub, k)
    decreases |s|
  {
    if Includes(s, sub) {
      if StartsWith(s, sub) {
        assert OccursAt(s, sub, 0);
      } else {
        IncludesIffOccurs(s[1..], sub);
        var k :| OccursAt(s[1..], sub, k);
        assert s[1..][k..k + |sub|] == s[k + 1..k + 1 + |sub|];
        assert OccursAt(s, sub, k + 1);
      }
    }
    if exists k :: OccursAt(s, sub, k) {
      var k :| OccursAt(s, sub, k);
      if k == 0 {
        assert StartsWith(s, sub);
      } else {
        assert s[1..][k - 1..k - 1 + |sub|] == s[k..k + |sub|];
        assert OccursAt(s[1..], sub, k - 1);
        IncludesIffOccurs(s[1..], sub);
      }
    }
  }

  /**
   * `toLowerCase` on one character, for the capitals whose Unicode lower-case
   * form is a single character found by a fixed offset: ASCII, Latin-1,
   * Latin Extended-A except U+0130, the Greek capitals U+0386-U+03AB (capital
   * sigma always becomes U+03C3) and the Cyrillic capitals U+0400-U+042F.
   * Every other character is kept as it is.
   */
  function LowerChar(c: char): (r: char)
    ensures 'A' <= c <= 'Z' ==> r as int == c as int + 32
    ensures 'a' <= c <= 'z' ==> r == c
  {
    var n := c as int;
    if 'A' <= c <= 'Z' || ('\U{00C0}' <= c <= '\U{00DE}' && c != '\U{00D7}') then (n + 32) as char
    else if 0x100 <= n <= 0x12F || 0x132 <= n <= 0x137 || 0x14A <= n <= 0x177 then
      if n % 2 == 0 then (n + 1) as char else c
    else if 0x139 <= n <= 0x148 || 0x179 <= n <= 0x17E then
      if n % 2 == 1 then (n + 1) as char else c
    else if n == 0x178 then '\U{00FF}'
    else if n == 0x386 then '\U{03AC}'
    else if 0x388 <= n <= 0x38A then (n + 37) as char
    else if n == 0x38C then '\U{03CC}'
    else if 0x38E <= n <= 0x38F then (n + 63) as char
    else if 0x391 <= n <= 0x3AB && n != 0x3A2 then (n + 32) as char
    else if 0x400 <= n <= 0x40F then (n + 80) as char
    else if 0x410 <= n <= 0x42F then (n + 32) as char
    else c
  }

  /** White space is never lowered, and no character is lowered into white space. */
  lemma LowerCharKeepsSpace(c: char)
    ensures IsJsSpace(LowerChar(c)) <==> IsJsSpace(c)
  {
    var r := LowerChar(c);
    if r != c {
      assert '\U{00E0}' <= r <= '\U{045F}' || 'a' <= r <= 'z';
    }
  }

  /** Lowering a lowered character changes nothing more. */
  lemma LowerCharIdempotent(c: char)
    ensures LowerChar(LowerChar(c)) == LowerChar(c)
  {
    var n := c as int;
    var r := LowerChar(c);
    if 'A' <= c <= 'Z' || ('\U{00C0}' <= c <= '\U{00DE}' && c != '\U{00D7}') {
      assert 'a' <= r <= 'z' || '\U{00E0}' <= r <= '\U{00FE}';
    } else if 0x100 <= n <= 0x12F || 0x132 <= n <= 0x137 || 0x14A <= n <= 0x177 {
      assert r as int % 2 == 1 && 0x100 <= r as int <= 0x177;
    } else if 0x139 <= n <= 0x148 || 0x179 <= n <= 0x17E {
      assert r as int % 2 == 0 && (0x139 <= r as int <= 0x148 || 0x179 <= r as int <= 0x17E);
    } else if n == 0x178 {
      assert r == '\U{00FF}';
    } else if 0x386 <= n <= 0x3AB {
      assert r == c || 0x3AC <= r as int <= 0x3CF;
    } else if 0x400 <= n <= 0x42F {
      assert 0x430 <= r as int <= 0x45F;
    } else {
      assert r == c;
    }
  }

  /** Some of the letters beyond ASCII that the page's search folds. */
  lemma LowerCharExamples()
    ensures LowerChar('\U{00C9}') == '\U{00E9}' && LowerChar('\U{0141}') == '\U{0142}'
    ensures LowerChar('\U{03A9}') == '\U{03C9}' && LowerChar('\U{0416}') == '\U{0436}'
    ensures LowerChar('\U{0130}') == '\U{0130}'
    ensures LowerChar('\U{03A3}') == '\U{03C3}'
  {
  }

  /** `s.toLowerCase()`, character by character with `LowerChar`. */
  function ToLower(s: string): (r: string)
    ensures |r| == |s|
    ensures forall i :: 0 <= i < |s| ==> r[i] == LowerChar(s[i])
  {
    seq(|s|, i requires 0 <= i < |s| => LowerChar(s[i]))
  }

  /** Lowering a lowered text changes nothing more, and keeps it all white space exactly when it was. */
  lemma ToLowerIdempotent(s: string)
    ensures ToLower(ToLower(s)) == ToLower(s)
    ensures AllSpace(ToLower(s)) <==> AllSpace(s)
  {
    forall i | 0 <= i < |s| ensures ToLower(ToLower(s))[i] == ToLower(s)[i] && (IsJsSpace(ToLower(s)[i]) <==> IsJsSpace(s[i])) {
      LowerCharIdempotent(s[i]);
      LowerCharKeepsSpace(s[i]);
    }
  }

  /** The characters `String.prototype.trim` strips: WhiteSpace and LineTerminator of ECMA-262. */
  predicate IsJsSpace(c: char) {
    || c == ' ' || c == '\t' || c == '\n' || c == '\r' || c == '\U{000B}' || c == '\U{000C}'
    || c == '\U{00A0}' || c == '\U{1680}' || ('\U{2000}' <= c <= '\U{200A}')
    || c == '\U{2028}' || c == '\U{2029}' || c == '\U{202F}' || c == '\U{205F}'
    || c == '\U{3000}' || c == '\U{FEFF}'
  }

  /** Every character of `s` is white space. */
  predicate AllSpace(s: string) {
    forall i :: 0 <= i < |s| ==> IsJsSpace(s[i])
  }

  /** The number of white-space characters `s` starts with. */
  function LeadingSpace(s: string): (k: nat)
    ensures k <= |s| && forall i :: 0 <= i < k ==> IsJsSpace(s[i])
    ensures k == |s| || !IsJsSpace(s[k])
  {
    if s == [] || !IsJsSpace(s[0]) then 0
    else
      var k := LeadingSpace(s[1..]);
      assert forall i :: 1 <= i <= |s[1..]| ==> s[i] == s[1..][i - 1];
      k + 1
  }

  /** The number of white-space characters `s` ends with. */
  function TrailingSpace(s: string): (k: nat)
    ensures k <= |s| && forall i :: |s| - k <= i < |s| ==> IsJsSpace(s[i])
    ensures k == |s| || !IsJsSpace(s[|s| - k - 1])
  {
    if s == [] || !IsJsSpace(s[|s| - 1]) then 0
    else
      var k := TrailingSpace(s[..|s| - 1]);
      assert forall i :: 0 <= i < |s| - 1 ==> s[i] == s[..|s| - 1][i];
      k + 1
  }

  /** `s.trimStart()`. */
  function TrimStart(s: string): string {
    s[LeadingSpace(s)..]
  }

  /** `s.trimEnd()`. */
  function TrimEnd(s: string): string {
    s[..|s| - TrailingSpace(s)]
  }

  /** A text that does not start with white space is its own `trimStart`. */
  lemma NoLeadingSpace(s: string)
    requires s != [] && !IsJsSpace(s[0])
    ensures TrimStart(s) == s
  {
  }

  /** `s.trim()`. */
  function Trim(s: string): string {
    TrimEnd(TrimStart(s))
  }

  /** `s.trim() === ""` holds exactly for the strings made of white space only. */
  lemma TrimEmptyIffAllSpace(s: string)
    ensures Trim(s) == "" <==> AllSpace(s)
  {
    var k := LeadingSpace(s);
    var t := s[k..];
    var j := TrailingSpace(t);
    assert Trim(s) == t[..|t| - j];
    assert k < |s| ==> t[0] == s[k];
    if Trim(s) == "" {
      assert k == |s|;
    }
  }

  /** The trimmed text neither starts nor ends with white space. */
  lemma TrimShape(s: string)
    ensures var r := Trim(s); r == [] || (!IsJsSpace(r[0]) && !IsJsSpace(r[|r| - 1]))
  {
    var k := LeadingSpace(s);
    var t := s[k..];
    var j := TrailingSpace(t);
    var r := t[..|t| - j];
    if r != [] {
      assert r[0] == s[k];
      assert r[|r| - 1] == t[|t| - j - 1];
    }
  }

  /** The decimal digit of a value below ten. */
  function DigitChar(d: nat): (c: char)
    requires d < 10
    ensures '0' <= c <= '9' && c as int - '0' as int == d
  {
    ('0' as int + d) as char
  }

  /** The decimal digits of `n`, most significant first (`String(n)` for a non-negative integer). */
  function NatToDecimal(n: nat): (r: string)
    ensures |r| > 0 && forall i :: 0 <= i < |r| ==> '0' <= r[i] <= '9'
    ensures r[0] == '0' ==> n == 0
  {
    if n < 10 then [DigitChar(n)] else NatToDecimal(n / 10) + [DigitChar(n % 10)]
  }

  /** `String(i)` for any integer: a minus sign before the digits of a negative value. */
  function IntToDecimal(i: int): (r: string)
    ensures i >= 0 ==> r == NatToDecimal(i)
    ensures i < 0 ==> r == "-" + NatToDecimal(-i)
  {
    if i >= 0 then NatToDecimal(i) else "-" + NatToDecimal(-i)
  }

  /** All characters are decimal digits. */
  predicate AllDigits(s: string) {
    forall i :: 0 <= i < |s| ==> '0' <= s[i] <= '9'
  }

  /** The value of a string of decimal digits. */
  function DigitsValue(s: string): nat
    requires AllDigits(s)
  {
    if s == [] then 0 else 10 * DigitsValue(s[..|s| - 1]) + (s[|s| - 1] as int - '0' as int)
  }

  /** The number of leading decimal digits of `s`. */
  function LeadingDigits(s: string): (n: nat)
    ensures n <= |s| && AllDigits(s[..n])
    ensures n < |s| ==> !('0' <= s[n] <= '9')
  {
    if s == [] || !('0' <= s[0] <= '9') then 0
    else
      var k := LeadingDigits(s[1..]);
      assert s[..k + 1] == [s[0]] + s[1..][..k];
      k + 1
  }

  /** Reading back the digits written by `NatToDecimal` gives the number. */
  lemma {:induction false} DecimalRoundTrip(n: nat)
    ensures DigitsValue(NatToDecimal(n)) == n
  {
    if n >= 10 {
      var r := NatToDecimal(n);
      assert r[..|r| - 1] == NatToDecimal(n / 10);
      DecimalRoundTrip(n / 10);
    }
  }

  /** Distinct numbers have distinct decimal renderings. */
  lemma DecimalInjective(m: nat, n: nat)
    requires NatToDecimal(m) == NatToDecimal(n)
    ensures m == n
  {
    DecimalRoundTrip(m);
    DecimalRoundTrip(n);
  }

  /** Different integers are written differently. */
  lemma IntDecimalInjective(a: int, b: int)
    requires IntToDecimal(a) == IntToDecimal(b)
    ensures a == b
  {
    if a >= 0 && b >= 0 {
      DecimalInjective(a, b);
    } else if a < 0 && b < 0 {
      assert NatToDecimal(-a) == IntToDecimal(a)[1..];
      DecimalInjective(-a, -b);
    }
  }
}
