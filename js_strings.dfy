/** String primitives of ECMAScript that the application relies on: what
    `trim` removes and `\s` matches, ASCII case folding as the non-Unicode
    `i` flag of a regular expression performs it, UTF-16 length, slicing and
    the decimal rendering of a number inside a template literal. */
module JsStrings {

  /** WhiteSpace and LineTerminator code points of ECMA-262 (sections 12.2
      and 12.3): exactly the characters `String.prototype.trim` strips and
      the regular-expression class `\s` matches. */
  predicate IsJsWhitespace(c: char) {
    || c == '\t' || c == '\n' || c == '\U{000B}' || c == '\U{000C}' || c == '\r'
    || c == ' ' || c == '\U{00A0}' || c == '\U{1680}'
    || ('\U{2000}' <= c <= '\U{200A}')
    || c == '\U{2028}' || c == '\U{2029}' || c == '\U{202F}' || c == '\U{205F}'
    || c == '\U{3000}' || c == '\U{FEFF}'
  }

  predicate AllWhitespace(s: string) {
    forall i :: 0 <= i < |s| ==> IsJsWhitespace(s[i])
  }

  /** The number of whitespace characters `s` starts with. */
  function LeadingWhitespace(s: string): (k: nat)
    ensures k <= |s|
    ensures forall j :: 0 <= j < k ==> IsJsWhitespace(s[j])
    ensures k < |s| ==> !IsJsWhitespace(s[k])
  {
    if s == [] || !IsJsWhitespace(s[0]) then 0
    else
      var k := LeadingWhitespace(s[1..]);
      assert forall j :: 1 <= j < k + 1 ==> s[j] == s[1..][j - 1];
      k + 1
  }

  /** Where the whitespace `s` ends with begins. */
  function TrailingWhitespace(s: string): (k: nat)
    ensures k <= |s|
    ensures forall j :: k <= j < |s| ==> IsJsWhitespace(s[j])
    ensures 0 < k ==> !IsJsWhitespace(s[k - 1])
  {
    if s == [] || !IsJsWhitespace(s[|s| - 1]) then |s|
    else
      var k := TrailingWhitespace(s[..|s| - 1]);
      assert forall j :: k <= j < |s| - 1 ==> s[j] == s[..|s| - 1][j];
      k
  }

  /** `r` is the slice s[a..b] of `s`, with only whitespace outside it and
      none at its two ends. */
  ghost predicate TrimmedAt(r: string, s: string, a: nat, b: nat) {
    && a <= b <= |s| && r == s[a..b]
    && (forall j :: 0 <= j < a ==> IsJsWhitespace(s[j]))
    && (forall j :: b <= j < |s| ==> IsJsWhitespace(s[j]))
    && (r != [] ==> !IsJsWhitespace(r[0]) && !IsJsWhitespace(r[|r| - 1]))
  }

  /** `r` is `s` with its leading and trailing whitespace removed. */
  ghost predicate IsTrimOf(r: string, s: string) {
    exists a: nat, b: nat :: TrimmedAt(r, s, a, b)
  }

  /** `s.trim()`: the text between the leading and the trailing whitespace. */
  function Trim(s: string): (r: string)
    ensures r == [] <==> AllWhitespace(s)
  {
    var a := LeadingWhitespace(s);
    if a == |s| then []
    else
      var b := TrailingWhitespace(s);
      assert !IsJsWhitespace(s[a]);
      assert s[a..b][0] == s[a];
      s[a..b]
  }

  /** Trim removes exactly the leading and trailing whitespace. */
  lemma TrimSpecified(s: string)
    ensures IsTrimOf(Trim(s), s)
  {
    var a := LeadingWhitespace(s);
    var b := TrailingWhitespace(s);
    if a == |s| {
      assert TrimmedAt([], s, |s|, |s|);
    } else {
      assert !IsJsWhitespace(s[a]);
      var r := Trim(s);
      assert r[0] == s[a] && r[|r| - 1] == s[b - 1];
      assert TrimmedAt(r, s, a, b);
    }
  }

  /** The upper-case form of an ASCII letter; every other character is left
      alone. When the pattern side is ASCII, this is the Canonicalize step of
      a non-Unicode case-insensitive regular expression (section 22.2.2.7.3
      of ECMA-262): a non-ASCII character never folds onto an ASCII one. */
  function AsciiUpper(c: char): char {
    if 'a' <= c <= 'z' then (c as int - 32) as char else c
  }

  function AsciiLower(c: char): char {
    if 'A' <= c <= 'Z' then (c as int + 32) as char else c
  }

  /** `s` lower-cased, for the ASCII letters. */
  function LowerAscii(s: string): (r: string)
    ensures |r| == |s|
    ensures forall i :: 0 <= i < |s| ==> r[i] == AsciiLower(s[i])
  {
    if s == [] then [] else [AsciiLower(s[0])] + LowerAscii(s[1..])
  }

  /** Case-insensitive equality of two strings as a regular expression with
      the `i` flag compares an ASCII pattern with the input. */
  predicate EqualsIgnoreCase(a: string, b: string) {
    |a| == |b| && forall i :: 0 <= i < |a| ==> AsciiUpper(a[i]) == AsciiUpper(b[i])
  }

  predicate StartsWith(s: string, prefix: string) {
    |prefix| <= |s| && s[..|prefix|] == prefix
  }

  predicate EndsWith(s: string, suffix: string) {
    |suffix| <= |s| && s[|s| - |suffix|..] == suffix
  }

  /** The `length` of a JavaScript string: its UTF-16 code units, two for a
      code point outside the Basic Multilingual Plane. */
  function Utf16Length(s: string): (n: nat)
    ensures |s| <= n <= 2 * |s|
  {
    if s == [] then 0
    else (if s[0] as int >= 0x1_0000 then 2 else 1) + Utf16Length(s[1..])
  }

  /** One character takes one code unit inside the Basic Multilingual Plane
      and a surrogate pair outside it. */
  lemma Utf16LengthOfChar(c: char)
    ensures Utf16Length([c]) == if c as int >= 0x1_0000 then 2 else 1
  {
    assert [c][1..] == [];
  }

  /** The length of a concatenation is the sum of the lengths. */
  lemma {:induction false} Utf16LengthAppend(a: string, b: string)
    ensures Utf16Length(a + b) == Utf16Length(a) + Utf16Length(b)
  {
    if a == [] {
      assert a + b == b;
    } else {
      assert (a + b)[0] == a[0];
      assert (a + b)[1..] == a[1..] + b;
      Utf16LengthAppend(a[1..], b);
    }
  }

  /** `s.slice(0, end)`: a negative `end` counts back from the end of `s`. */
  function SliceTo(s: string, end: int): (r: string)
    ensures 0 <= end ==> r == s[..if end < |s| then end else |s|]
    ensures end < 0 ==> r == s[..if |s| + end < 0 then 0 else |s| + end]
  {
    var k := if end < 0 then (if |s| + end < 0 then 0 else |s| + end)
             else if end < |s| then end else |s|;
    s[..k]
  }

  function DigitChar(d: nat): char
    requires d < 10
  {
    ('0' as int + d) as char
  }

  /** The number a run of decimal digits spells. */
  function DecimalValue(s: string): nat {
    if s == [] then 0
    else
      var c := s[|s| - 1];
      DecimalValue(s[..|s| - 1]) * 10 + (if '0' <= c <= '9' then c as int - '0' as int else 0)
  }

  /** The decimal rendering of a non-negative integer (`${n}`): digits that
      spell n, with no leading zero. */
  function NatToDecimal(n: nat): (r: string)
    ensures r != []
    ensures forall i :: 0 <= i < |r| ==> '0' <= r[i] <= '9'
    ensures DecimalValue(r) == n
    ensures r[0] == '0' ==> n == 0
  {
    if n < 10 then [DigitChar(n)]
    else
      var r := NatToDecimal(n / 10) + [DigitChar(n % 10)];
      assert r[..|r| - 1] == NatToDecimal(n / 10);
      r
  }

  /** Distinct numbers have distinct renderings. */
  lemma NatToDecimalInjective(m: nat, n: nat)
    requires NatToDecimal(m) == NatToDecimal(n)
    ensures m == n
  {
  }
}
