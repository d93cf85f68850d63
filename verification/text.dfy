/** The string operations the dashboard's helpers call: `toLowerCase` and
    `toUpperCase` (ASCII letters only), `String(n)` for integers,
    `padStart`, `trim`, and the clamped integer quantity field. */
module Text {
  import opened Wrappers

  // ---------------------------------------------------------------------
  // Case mapping

  function LowerChar(c: char): char {
    if 'A' <= c <= 'Z' then (c as int + 32) as char else c
  }

  function UpperChar(c: char): char {
    if 'a' <= c <= 'z' then (c as int - 32) as char else c
  }

  /** `s.toLowerCase()`, restricted to the ASCII letters. */
  function Lower(s: string): (r: string)
    ensures |r| == |s|
    ensures forall i :: 0 <= i < |s| ==> r[i] == LowerChar(s[i])
  {
    seq(|s|, i requires 0 <= i < |s| => LowerChar(s[i]))
  }

  /** `s.toUpperCase()`, restricted to the ASCII letters. */
  function Upper(s: string): (r: string)
    ensures |r| == |s|
    ensures forall i :: 0 <= i < |s| ==> r[i] == UpperChar(s[i])
  {
    seq(|s|, i requires 0 <= i < |s| => UpperChar(s[i]))
  }

  /** Upper-casing forgets any earlier lower-casing: two strings that agree
      ignoring case have the same upper-case form. */
  lemma UpperOfLower(s: string)
    ensures Upper(Lower(s)) == Upper(s)
  {
    assert forall i :: 0 <= i < |s| ==> UpperChar(LowerChar(s[i])) == UpperChar(s[i]);
  }

  // ---------------------------------------------------------------------
  // Decimal rendering

  predicate IsDigit(c: char) {
    '0' <= c <= '9'
  }

  predicate AllDigits(s: string) {
    forall i :: 0 <= i < |s| ==> IsDigit(s[i])
  }

  function DigitChar(d: nat): (c: char)
    requires d < 10
    ensures IsDigit(c)
  {
    ('0' as int + d) as char
  }

  function DigitValue(c: char): (d: nat)
    requires IsDigit(c)
    ensures d < 10 && DigitChar(d) == c
  {
    c as int - '0' as int
  }

  /** `String(n)` for a non-negative integer: its decimal digits, no leading
      zero. */
  function NatToString(n: nat): (r: string)
    ensures 1 <= |r|
    ensures AllDigits(r)
    ensures n > 0 ==> r[0] != '0'
    decreases n
  {
    if n < 10 then [DigitChar(n)]
    else NatToString(n / 10) + [DigitChar(n % 10)]
  }

  /** `String(n)` for any integer: a '-' sign before the digits of a negative
      number. */
  function IntToString(n: int): (r: string)
    ensures 1 <= |r|
    ensures n >= 0 <==> AllDigits(r)
    ensures n >= 0 ==> r == NatToString(n)
    ensures n < 0 ==> r[0] == '-' && r[1..] == NatToString(-n)
  {
    if n < 0 then
      var r := "-" + NatToString(-n);
      assert !IsDigit(r[0]);
      r
    else NatToString(n)
  }

  /** The value a string of decimal digits denotes; the inverse of
      NatToString. */
  function ParseNat(s: string): nat
    requires AllDigits(s)
  {
    if |s| == 0 then 0 else ParseNat(s[..|s| - 1]) * 10 + DigitValue(s[|s| - 1])
  }

  /** Rendering a number in decimal and reading it back gives the number. */
  lemma {:induction false} ParseNatToString(n: nat)
    ensures ParseNat(NatToString(n)) == n
    decreases n
  {
    var r := NatToString(n);
    if n >= 10 {
      assert r[..|r| - 1] == NatToString(n / 10);
      ParseNatToString(n / 10);
    }
  }

  /** How many digits `String(n)` has, by magnitude. */
  lemma NatToStringLength(n: nat)
    ensures n < 10 ==> |NatToString(n)| == 1
    ensures 10 <= n < 100 ==> |NatToString(n)| == 2
    ensures 100 <= n < 1000 ==> |NatToString(n)| == 3
    ensures 1000 <= n < 10000 ==> |NatToString(n)| == 4
  {
  }

  // ---------------------------------------------------------------------
  // padStart

  function Repeat(c: char, n: nat): (r: string)
    ensures |r| == n
    ensures forall i :: 0 <= i < n ==> r[i] == c
  {
    seq(n, _ => c)
  }

  /** `s.padStart(width, [fill])`: left-pad with `fill` up to `width`
      characters; a string already that long is returned unchanged. */
  function PadStart(s: string, width: nat, fill: char): (r: string)
    ensures |s| >= width ==> r == s
    ensures |s| < width ==> |r| == width
    ensures r[|r| - |s|..] == s
    ensures forall i :: 0 <= i < |r| - |s| ==> r[i] == fill
  {
    if |s| >= width then s else Repeat(fill, width - |s|) + s
  }

  /** A run of '0' characters denotes zero. */
  lemma {:induction false} ParseNatZeros(n: nat)
    ensures AllDigits(Repeat('0', n)) && ParseNat(Repeat('0', n)) == 0
    decreases n
  {
    if n > 0 {
      assert Repeat('0', n)[..n - 1] == Repeat('0', n - 1);
      ParseNatZeros(n - 1);
    }
  }

  /** Zero-padding on the left does not change the value a digit string
      denotes. */
  lemma {:induction false} ParseNatZeroPrefix(n: nat, s: string)
    requires AllDigits(s)
    ensures AllDigits(Repeat('0', n) + s)
    ensures ParseNat(Repeat('0', n) + s) == ParseNat(s)
    decreases |s|
  {
    var t := Repeat('0', n) + s;
    if |s| == 0 {
      assert t == Repeat('0', n);
      ParseNatZeros(n);
    } else {
      assert t[..|t| - 1] == Repeat('0', n) + s[..|s| - 1];
      ParseNatZeroPrefix(n, s[..|s| - 1]);
    }
  }

  /** `String(n).padStart(width, '0')` still reads back as `n`. */
  lemma ParseNatPadded(n: nat, width: nat)
    ensures AllDigits(PadStart(NatToString(n), width, '0'))
    ensures ParseNat(PadStart(NatToString(n), width, '0')) == n
  {
    var s := NatToString(n);
    ParseNatToString(n);
    if |s| < width {
      ParseNatZeroPrefix(width - |s|, s);
    }
  }

  // ---------------------------------------------------------------------
  // trim

  /** The ECMAScript WhiteSpace and LineTerminator characters that `trim`
      strips. */
  predicate IsSpace(c: char) {
    || c == ' ' || c == '\t' || c == '\n' || c == '\r'
    || c == '\U{000B}' || c == '\U{000C}' || c == '\U{00A0}' || c == '\U{1680}'
    || ('\U{2000}' <= c <= '\U{200A}')
    || c == '\U{2028}' || c == '\U{2029}' || c == '\U{202F}' || c == '\U{205F}'
    || c == '\U{3000}' || c == '\U{FEFF}'
  }

  predicate Blank(s: string) {
    forall i :: 0 <= i < |s| ==> IsSpace(s[i])
  }

  /** Every character of `s[lo..hi]` is white space. */
  predicate BlankBetween(s: string, lo: int, hi: int) {
    forall k :: lo <= k < hi && 0 <= k < |s| ==> IsSpace(s[k])
  }

  /** Where the text starts: the first non-space index at or after `i`, or
      `|s|`. */
  function SkipStart(s: string, i: nat): (a: nat)
    requires i <= |s|
    ensures i <= a <= |s|
    ensures BlankBetween(s, i, a)
    ensures a < |s| ==> !IsSpace(s[a])
    decreases |s| - i
  {
    if i < |s| && IsSpace(s[i]) then SkipStart(s, i + 1) else i
  }

  /** Where the text ends: the end of the last non-space character in
      `s[lo..j]`, or `lo`. */
  function SkipEnd(s: string, lo: nat, j: nat): (b: nat)
    requires lo <= j <= |s|
    ensures lo <= b <= j
    ensures BlankBetween(s, b, j)
    ensures b > lo ==> !IsSpace(s[b - 1])
    decreases j
  {
    if j > lo && IsSpace(s[j - 1]) then SkipEnd(s, lo, j - 1) else j
  }

  /** `s.trim()`: `s` without leading and trailing white space. */
  function Trim(s: string): (r: string)
    ensures |r| > 0 ==> !IsSpace(r[0]) && !IsSpace(r[|r| - 1])
    ensures exists a, b :: 0 <= a <= b <= |s| && r == s[a..b]
                        && BlankBetween(s, 0, a) && BlankBetween(s, b, |s|)
  {
    var a := SkipStart(s, 0);
    var b := SkipEnd(s, a, |s|);
    s[a..b]
  }

  /** A string trims to nothing exactly when it is all white space: the
      condition `!s.trim()` tests. */
  lemma TrimEmptyIffBlank(s: string)
    ensures Trim(s) == "" <==> Blank(s)
  {
    var r := Trim(s);
    var a, b :| 0 <= a <= b <= |s| && r == s[a..b]
             && BlankBetween(s, 0, a) && BlankBetween(s, b, |s|);
    if r != "" {
      assert !IsSpace(s[a]);
    }
  }

  // ---------------------------------------------------------------------
  // Numeric inputs

  /** The quantity field's change handler,
      `Math.max(1, parseInt(value) || 1)`: `raw` is what `parseInt` returned,
      None for NaN. NaN and 0 fall back to 1, anything below 1 is raised to 1. */
  function QuantityInput(raw: Option<int>): (r: int)
    ensures r >= 1
    ensures raw.Some? && raw.value >= 1 ==> r == raw.value
    ensures raw.None? || raw.value < 1 ==> r == 1
  {
    var parsed := if raw.None? || raw.value == 0 then 1 else raw.value;
    if parsed > 1 then parsed else 1
  }
}
