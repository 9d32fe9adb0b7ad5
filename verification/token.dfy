/** The meeting token `SJU-XYZ` built by the Schedule form from `Math.random()`. */
module MeetingToken {
  import opened Text
  import opened Wrappers

  /** One digit of a base-36 numeral. */
  type Base36Digit = d: int | 0 <= d < 36

  /** The prefix every token carries. */
  const TokenPrefix: string := "SJU-"

  /** How `Number.prototype.toString(36)` writes a digit: 0-9, then lower-case a-z. */
  function DigitChar(d: Base36Digit): (c: char)
    ensures d < 10 ==> IsAsciiDigit(c) && c as int - '0' as int == d
    ensures d >= 10 ==> IsAsciiLower(c) && c as int - 'a' as int == d - 10
  {
    if d < 10 then ('0' as int + d) as char else ('a' as int + d - 10) as char
  }

  /** `x.toString(36)` for a number `0 <= x < 1` whose base-36 fraction digits are
      `fraction`: "0" when there are none, otherwise "0." followed by the digits. */
  function RadixString(fraction: seq<Base36Digit>): (r: string)
    ensures |fraction| == 0 ==> r == "0"
    ensures |fraction| > 0 ==> |r| == |fraction| + 2 && r[..2] == "0."
    ensures forall i :: 0 <= i < |fraction| ==> r[i + 2] == DigitChar(fraction[i])
  {
    if |fraction| == 0 then "0" else "0." + DigitsString(fraction)
  }

  function DigitsString(ds: seq<Base36Digit>): (r: string)
    ensures |r| == |ds|
    ensures forall i :: 0 <= i < |ds| ==> r[i] == DigitChar(ds[i])
  {
    if |ds| == 0 then "" else [DigitChar(ds[0])] + DigitsString(ds[1..])
  }

  /** The token: "SJU-" followed by `toString(36).slice(2, 5).toUpperCase()` of the random
      number. It keeps the prefix, adds one character of `[0-9A-Z]` per fraction digit, and
      has fewer than three of them when the numeral has fewer than three fraction digits. */
  function MakeToken(fraction: seq<Base36Digit>): (t: string)
    ensures |t| == |TokenPrefix| + Min(3, |fraction|)
    ensures t[..|TokenPrefix|] == TokenPrefix
    ensures forall i :: |TokenPrefix| <= i < |t| ==> IsAsciiDigit(t[i]) || IsAsciiUpper(t[i])
  {
    var code := AsciiUpper(Slice(RadixString(fraction), 2, 5));
    assert forall i :: 0 <= i < |code| ==> code[i] == AsciiUpperChar(DigitChar(fraction[i]));
    TokenPrefix + code
  }

  /** The token shape `SJU-` followed by exactly three characters of `[0-9A-Z]`. */
  predicate HasThreeCharCode(t: string)
  {
    && |t| == |TokenPrefix| + 3
    && t[..|TokenPrefix|] == TokenPrefix
    && forall i :: |TokenPrefix| <= i < |t| ==> IsAsciiDigit(t[i]) || IsAsciiUpper(t[i])
  }

  /** A token has the full three-character code exactly when the random numeral had at
      least three fraction digits. */
  lemma ThreeCharCodeIffThreeDigits(fraction: seq<Base36Digit>)
    ensures HasThreeCharCode(MakeToken(fraction)) <==> |fraction| >= 3
  {
  }

  /** The digit a character of a token's code stands for: the inverse of `DigitChar`
      followed by upper-casing. */
  function CodeCharValue(c: char): (d: Option<Base36Digit>)
    ensures d.Some? <==> IsAsciiDigit(c) || IsAsciiUpper(c)
  {
    if IsAsciiDigit(c) then Some(c as int - '0' as int)
    else if IsAsciiUpper(c) then Some(c as int - 'A' as int + 10)
    else None
  }

  /** The digits a code stands for, or None when a character is outside `[0-9A-Z]`. */
  function DecodeCode(code: string): (ds: Option<seq<Base36Digit>>)
    ensures ds.Some? ==> |ds.value| == |code|
  {
    if |code| == 0 then Some([])
    else match (CodeCharValue(code[0]), DecodeCode(code[1..]))
      case (Some(d), Some(rest)) => Some([d] + rest)
      case _ => None
  }

  /** Reads the digits back out of a token, or returns None for a string that is not
      one: a missing prefix, more than three code characters or a character outside
      `[0-9A-Z]`. */
  function DecodeToken(t: string): (ds: Option<seq<Base36Digit>>)
    ensures ds.Some? ==> |ds.value| == |t| - |TokenPrefix| <= 3 && StartsWith(t, TokenPrefix)
  {
    if !StartsWith(t, TokenPrefix) || |t| > |TokenPrefix| + 3 then None
    else DecodeCode(t[|TokenPrefix|..])
  }

  lemma {:induction false} DecodeUpperDigits(ds: seq<Base36Digit>)
    ensures DecodeCode(AsciiUpper(DigitsString(ds))) == Some(ds)
  {
    if |ds| > 0 {
      var code := AsciiUpper(DigitsString(ds));
      assert code[1..] == AsciiUpper(DigitsString(ds[1..]));
      DecodeUpperDigits(ds[1..]);
      assert ds == [ds[0]] + ds[1..];
    }
  }

  /** The token depends on the random number only through the first (up to three)
      fraction digits its numeral prints. */
  lemma MakeTokenOfLeadingDigits(fraction: seq<Base36Digit>)
    ensures MakeToken(fraction)
      == TokenPrefix + AsciiUpper(DigitsString(fraction[..Min(3, |fraction|)]))
  {
    assert Slice(RadixString(fraction), 2, 5) == DigitsString(fraction[..Min(3, |fraction|)]);
  }

  /** Decoding a token gives back the first (up to three) printed fraction digits it was
      made from. */
  lemma DecodeMakeToken(fraction: seq<Base36Digit>)
    ensures DecodeToken(MakeToken(fraction)) == Some(fraction[..Min(3, |fraction|)])
  {
    var kept := fraction[..Min(3, |fraction|)];
    MakeTokenOfLeadingDigits(fraction);
    var t := MakeToken(fraction);
    assert t[|TokenPrefix|..] == AsciiUpper(DigitsString(kept));
    DecodeUpperDigits(kept);
  }

  /** Two random numbers give the same token exactly when the first (up to three)
      fraction digits their numerals print agree: 0.5 prints "0.i" and gives "SJU-I",
      while a number printing "0.i0001" gives "SJU-I00". The code space holds at most
      36 * 36 * 36 full codes. */
  lemma SameTokenIffSamePrefix(a: seq<Base36Digit>, b: seq<Base36Digit>)
    ensures MakeToken(a) == MakeToken(b) <==> a[..Min(3, |a|)] == b[..Min(3, |b|)]
  {
    DecodeMakeToken(a);
    DecodeMakeToken(b);
    MakeTokenOfLeadingDigits(a);
    MakeTokenOfLeadingDigits(b);
  }
}
