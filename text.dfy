/** Character classes, substring tests and the two JavaScript number parsers
    (`parseFloat`, `parseInt`) that the routes and the client apply to user text
    and scraped markup. Strings are sequences of Unicode scalar values. */
module Text {
  import opened Wrappers

  predicate IsDigit(c: char) { '0' <= c <= '9' }

  /** The characters of the regular-expression class `\s` (white space and line
      terminators), which is also the set `parseFloat` and `parseInt` skip. */
  predicate IsSpace(c: char) {
    || c == ' ' || c == '\t' || c == '\n' || c == '\r' || c == '\U{000B}' || c == '\U{000C}'
    || c == '\U{00A0}' || c == '\U{1680}' || ('\U{2000}' <= c <= '\U{200A}')
    || c == '\U{2028}' || c == '\U{2029}' || c == '\U{202F}' || c == '\U{205F}'
    || c == '\U{3000}' || c == '\U{FEFF}'
  }

  predicate StartsWith(s: string, prefix: string) {
    |prefix| <= |s| && s[..|prefix|] == prefix
  }

  /** `s.includes(sub)` */
  predicate Contains(s: string, sub: string)
    decreases |s|
  {
    StartsWith(s, sub) || (|s| > 0 && Contains(s[1..], sub))
  }

  /** `Contains` holds exactly when `sub` occurs at some position of `s`. */
  lemma {:induction false} ContainsAt(s: string, sub: string, i: nat)
    requires i + |sub| <= |s| && s[i..i + |sub|] == sub
    ensures Contains(s, sub)
    decreases i
  {
    if i > 0 {
      assert s[1..][i - 1..i - 1 + |sub|] == s[i..i + |sub|];
      ContainsAt(s[1..], sub, i - 1);
    }
  }

  lemma {:induction false} ContainsWitness(s: string, sub: string) returns (i: nat)
    requires Contains(s, sub)
    ensures i + |sub| <= |s| && s[i..i + |sub|] == sub
    decreases |s|
  {
    if StartsWith(s, sub) {
      i := 0;
    } else {
      var j := ContainsWitness(s[1..], sub);
      i := j + 1;
      assert s[i..i + |sub|] == s[1..][j..j + |sub|];
    }
  }

  /** `String.prototype.toLowerCase` on the ASCII letters; every other character is kept. */
  function LowerChar(c: char): char {
    if 'A' <= c <= 'Z' then (c as int + 32) as char else c
  }

  function ToLower(s: string): string {
    seq(|s|, i requires 0 <= i < |s| => LowerChar(s[i]))
  }

  /** The index just past the longest run of characters satisfying `p` that starts at `i`. */
  function RunEnd(s: string, i: nat, p: char -> bool): (j: nat)
    requires i <= |s|
    ensures i <= j <= |s|
    ensures forall k :: i <= k < j ==> p(s[k])
    ensures j == |s| || !p(s[j])
    decreases |s| - i
  {
    if i < |s| && p(s[i]) then RunEnd(s, i + 1, p) else i
  }

  /** A run of characters that all satisfy `p` ends at the first character that does not. */
  lemma RunEndOfRun(s: string, i: nat, j: nat, p: char -> bool)
    requires i <= j <= |s|
    requires forall k :: i <= k < j ==> p(s[k])
    requires j == |s| || !p(s[j])
    ensures RunEnd(s, i, p) == j
  {
  }

  predicate AllDigits(s: string) {
    forall i :: 0 <= i < |s| ==> IsDigit(s[i])
  }

  function DigitValue(c: char): nat
    requires IsDigit(c)
  {
    c as int - '0' as int
  }

  function Pow10(n: nat): (r: nat)
    ensures r >= 1
  {
    if n == 0 then 1 else 10 * Pow10(n - 1)
  }

  /** The value of a string of decimal digits. */
  function DigitsValue(s: string): nat
    requires AllDigits(s)
    decreases |s|
  {
    if |s| == 0 then 0 else DigitsValue(s[..|s| - 1]) * 10 + DigitValue(s[|s| - 1])
  }

  /** The value of the digits after a decimal point: "92" is 0.92. */
  function Fraction(s: string): real
    requires AllDigits(s)
  {
    DigitsValue(s) as real / Pow10(|s|) as real
  }

  /** The factor an exponent part `e[+-]digits` starting at `i` contributes; 1 when there is none. */
  function ExponentScale(s: string, i: nat): real
    requires i <= |s|
  {
    if i < |s| && (s[i] == 'e' || s[i] == 'E') then
      var neg := i + 1 < |s| && s[i + 1] == '-';
      var a := if i + 1 < |s| && (s[i + 1] == '-' || s[i + 1] == '+') then i + 2 else i + 1;
      var b := RunEnd(s, a, IsDigit);
      if b == a then 1.0
      else if neg then 1.0 / Pow10(DigitsValue(s[a..b])) as real
      else Pow10(DigitsValue(s[a..b])) as real
    else 1.0
  }

  /** JavaScript's `parseFloat`: after leading white space, the value of the longest
      prefix that is a decimal literal (sign, digits, optional point and digits,
      optional exponent); `None` is `NaN`. */
  function ParseFloat(s: string): Option<real> {
    var a := RunEnd(s, 0, IsSpace);
    if a < |s| && s[a] == '-' then
      match UnsignedDecimalAt(s, a + 1)
      case Some(v) => Some(-v)
      case None => None
    else if a < |s| && s[a] == '+' then UnsignedDecimalAt(s, a + 1)
    else UnsignedDecimalAt(s, a)
  }

  /** The longest unsigned decimal literal starting at `b`: digits, then optionally
      a point and more digits (at least one digit in all), then an optional exponent. */
  function UnsignedDecimalAt(s: string, b: nat): Option<real>
    requires b <= |s|
  {
    var c := RunEnd(s, b, IsDigit);
    if c < |s| && s[c] == '.' then
      var d := RunEnd(s, c + 1, IsDigit);
      if c == b && d == c + 1 then None
      else Some((DigitsValue(s[b..c]) as real + Fraction(s[c + 1..d])) * ExponentScale(s, d))
    else if c == b then None
    else Some(DigitsValue(s[b..c]) as real * ExponentScale(s, c))
  }

  /** JavaScript's `parseInt` with no radix, for decimal text: after leading white
      space, an optional sign and the longest run of digits; `None` is `NaN`. */
  function ParseInt(s: string): Option<int> {
    var a := RunEnd(s, 0, IsSpace);
    var neg := a < |s| && s[a] == '-';
    var b := if a < |s| && (s[a] == '-' || s[a] == '+') then a + 1 else a;
    var c := RunEnd(s, b, IsDigit);
    if c == b then None
    else Some(if neg then -(DigitsValue(s[b..c]) as int) else DigitsValue(s[b..c]))
  }

  /** `parseFloat` reads a numeral of digits with one decimal point at `c` as the
      integer part before the point plus the fraction after it. */
  lemma ParseFloatPoint(s: string, c: nat)
    requires 0 < c < |s| && s[c] == '.'
    requires forall k :: 0 <= k < |s| && k != c ==> IsDigit(s[k])
    ensures AllDigits(s[..c]) && AllDigits(s[c + 1..])
    ensures ParseFloat(s) == Some(DigitsValue(s[..c]) as real + Fraction(s[c + 1..]))
  {
    RunEndOfRun(s, 0, 0, IsSpace);
    RunEndOfRun(s, 0, c, IsDigit);
    RunEndOfRun(s, c + 1, |s|, IsDigit);
    assert s[0..c] == s[..c];
    assert s[c + 1..|s|] == s[c + 1..];
    var m := DigitsValue(s[..c]) as real + Fraction(s[c + 1..]);
    assert ExponentScale(s, |s|) == 1.0;
    assert m * 1.0 == m;
  }

  /** `parseFloat` reads a run of digits as its value. */
  lemma ParseFloatDigits(ip: string)
    requires |ip| > 0 && AllDigits(ip)
    ensures ParseFloat(ip) == Some(DigitsValue(ip) as real)
  {
    RunEndOfRun(ip, 0, 0, IsSpace);
    RunEndOfRun(ip, 0, |ip|, IsDigit);
    assert ip[0..|ip|] == ip;
    assert ExponentScale(ip, |ip|) == 1.0;
  }

  /** Text with no digit and no point parses to `NaN`. */
  lemma ParseFloatNaN(s: string)
    requires forall i :: 0 <= i < |s| ==> !IsDigit(s[i]) && s[i] != '.'
    ensures ParseFloat(s) == None
  {
  }
}
