/** Character classes and the JavaScript string operations the workflow relies on. */
module Text {

  predicate IsAsciiDigit(c: char) { '0' <= c <= '9' }

  predicate IsAsciiUpper(c: char) { 'A' <= c <= 'Z' }

  predicate IsAsciiLower(c: char) { 'a' <= c <= 'z' }

  /** The class `[A-Za-z0-9]` of a regular expression. */
  predicate IsAsciiAlphanumeric(c: char)
  {
    IsAsciiDigit(c) || IsAsciiUpper(c) || IsAsciiLower(c)
  }

  /** The characters `String.prototype.trim` strips: the WhiteSpace and LineTerminator
      code points of ECMAScript (tab, vertical tab, form feed, space, no-break space,
      byte-order mark, the Unicode space separators, line feed, carriage return and the
      line and paragraph separators). */
  predicate IsJsWhitespace(c: char)
  {
    || c == ' ' || c == '\t' || c == '\n' || c == '\r'
    || c == '\U{000B}' || c == '\U{000C}' || c == '\U{00A0}' || c == '\U{FEFF}'
    || c == '\U{1680}' || ('\U{2000}' <= c <= '\U{200A}')
    || c == '\U{2028}' || c == '\U{2029}' || c == '\U{202F}' || c == '\U{205F}'
    || c == '\U{3000}'
  }

  predicate AllWhitespace(s: string)
  {
    forall i :: 0 <= i < |s| ==> IsJsWhitespace(s[i])
  }

  /** The first index at or after `i` that does not hold white space, or `|s|`. */
  function SkipFront(s: string, i: nat): (k: nat)
    requires i <= |s|
    ensures i <= k <= |s|
    ensures forall j :: i <= j < k ==> IsJsWhitespace(s[j])
    ensures k == |s| || !IsJsWhitespace(s[k])
    decreases |s| - i
  {
    if i < |s| && IsJsWhitespace(s[i]) then SkipFront(s, i + 1) else i
  }

  /** The end of `s[lo..hi]` once the white space at its back is dropped. */
  function SkipBack(s: string, lo: nat, hi: nat): (k: nat)
    requires lo <= hi <= |s|
    ensures lo <= k <= hi
    ensures forall j :: k <= j < hi ==> IsJsWhitespace(s[j])
    ensures k == lo || !IsJsWhitespace(s[k - 1])
  {
    if hi > lo && IsJsWhitespace(s[hi - 1]) then SkipBack(s, lo, hi - 1) else hi
  }

  /** `String.prototype.trim`: the infix of `s` left after cutting the white space off
      both ends. It neither starts nor ends with white space, and it is empty exactly
      when `s` is all white space (when the JavaScript value `s.trim()` is falsy). */
  function Trim(s: string): (r: string)
    ensures var lo := SkipFront(s, 0);
      && lo + |r| <= |s| && r == s[lo..lo + |r|]
      && (forall j :: 0 <= j < lo ==> IsJsWhitespace(s[j]))
      && (forall j :: lo + |r| <= j < |s| ==> IsJsWhitespace(s[j]))
    ensures |r| == 0 || (!IsJsWhitespace(r[0]) && !IsJsWhitespace(r[|r| - 1]))
    ensures r == "" <==> AllWhitespace(s)
  {
    var lo := SkipFront(s, 0);
    var hi := SkipBack(s, lo, |s|);
    s[lo..hi]
  }

  /** The ASCII upper-case letter for an ASCII lower-case one; every other character
      unchanged. */
  function AsciiUpperChar(c: char): (u: char)
    ensures IsAsciiLower(c) ==> IsAsciiUpper(u) && u as int == c as int - 32
    ensures !IsAsciiLower(c) ==> u == c
  {
    if IsAsciiLower(c) then (c as int - 32) as char else c
  }

  /** `String.prototype.toUpperCase` restricted to ASCII: the strings it is applied to in
      this model hold only digits and lower-case ASCII letters. */
  function AsciiUpper(s: string): (r: string)
    ensures |r| == |s|
    ensures forall i :: 0 <= i < |s| ==> r[i] == AsciiUpperChar(s[i])
  {
    if |s| == 0 then "" else [AsciiUpperChar(s[0])] + AsciiUpper(s[1..])
  }

  /** `String.prototype.slice(from, to)` for non-negative bounds: both bounds are clamped
      to the length, and a range that is empty or reversed gives "". */
  function Slice(s: string, from: nat, to: nat): (r: string)
    ensures from <= to <= |s| ==> r == s[from..to]
    ensures |r| == if from < to && from < |s| then Min(to, |s|) - from else 0
    ensures forall i :: 0 <= i < |r| ==> r[i] == s[from + i]
  {
    var lo := Min(from, |s|);
    var hi := Min(to, |s|);
    if lo >= hi then "" else s[lo..hi]
  }

  function Min(a: int, b: int): int { if a <= b then a else b }

  /** `String.prototype.startsWith`. */
  predicate StartsWith(s: string, prefix: string)
    ensures StartsWith(s, prefix) <==>
      |prefix| <= |s| && forall i :: 0 <= i < |prefix| ==> s[i] == prefix[i]
  {
    |prefix| <= |s| && s[..|prefix|] == prefix
  }
}
