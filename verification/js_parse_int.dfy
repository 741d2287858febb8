/**
 * JavaScript's `parseInt(text)` without a radix, and `text.trim()` emptiness.
 *
 * parseInt skips leading white space, reads an optional sign, then reads the longest
 * run of decimal digits (or of hexadecimal digits after a `0x` / `0X` prefix) and
 * ignores whatever follows; with no digit at all it gives NaN, here `None`. Values are
 * exact integers (no rounding of very long digit runs).
 */
module JsParseInt {
  import opened Wrappers
  import Digits

  /** The characters JavaScript's trim and number parsing treat as white space. */
  predicate IsWhiteSpace(c: char) {
    c == '\t' || c == '\n' || c == '\U{000B}' || c == '\U{000C}' || c == '\r' || c == ' '
    || c == '\U{00A0}' || c == '\U{1680}' || ('\U{2000}' <= c <= '\U{200A}')
    || c == '\U{2028}' || c == '\U{2029}' || c == '\U{202F}' || c == '\U{205F}'
    || c == '\U{3000}' || c == '\U{FEFF}'
  }

  /** `!text.trim()`: the text is empty or white space only. */
  predicate IsBlank(text: string) {
    forall i :: 0 <= i < |text| ==> IsWhiteSpace(text[i])
  }

  function SkipWhiteSpace(s: string): (r: string)
    ensures |r| <= |s| && r == s[|s| - |r|..]
    ensures r == [] || !IsWhiteSpace(r[0])
    ensures IsBlank(s[..|s| - |r|])
  {
    if s != [] && IsWhiteSpace(s[0]) then
      var r := SkipWhiteSpace(s[1..]);
      assert s[..|s| - |r|] == [s[0]] + s[1..][..|s[1..]| - |r|];
      r
    else s
  }

  /** The value of `c` as a digit of `base` (10 or 16), or -1. */
  function DigitOf(c: char, base: int): int {
    if '0' <= c <= '9' && (c as int) - ('0' as int) < base then (c as int) - ('0' as int)
    else if base == 16 && 'a' <= c <= 'f' then (c as int) - ('a' as int) + 10
    else if base == 16 && 'A' <= c <= 'F' then (c as int) - ('A' as int) + 10
    else -1
  }

  /** The digit values of the longest prefix of `s` made of digits of `base`. */
  function DigitPrefix(s: string, base: int): (ds: seq<int>)
    ensures |ds| <= |s|
    ensures forall i :: 0 <= i < |ds| ==> ds[i] == DigitOf(s[i], base) && ds[i] >= 0
    ensures |ds| < |s| ==> DigitOf(s[|ds|], base) < 0
  {
    if s != [] && DigitOf(s[0], base) >= 0 then [DigitOf(s[0], base)] + DigitPrefix(s[1..], base)
    else []
  }

  function Signed(negative: bool, v: int): int {
    if negative then -v else v
  }

  function ParseInt(text: string): Option<int> {
    ParseSigned(SkipWhiteSpace(text))
  }

  /** parseInt after the white space: an optional sign, then the magnitude. */
  function ParseSigned(t: string): Option<int> {
    var negative := t != [] && t[0] == '-';
    var u := if t != [] && (t[0] == '-' || t[0] == '+') then t[1..] else t;
    match ParseMagnitude(u)
    case None => None
    case Some(v) => Some(Signed(negative, v))
  }

  /** The leading hexadecimal digits after a `0x` / `0X` prefix, else the leading decimal digits. */
  function ParseMagnitude(u: string): Option<int> {
    if |u| >= 2 && u[0] == '0' && (u[1] == 'x' || u[1] == 'X') then
      var hs := DigitPrefix(u[2..], 16);
      if hs == [] then None else Some(Digits.Value(hs, 16))
    else
      var ds := DigitPrefix(u, 10);
      if ds == [] then None else Some(Digits.Value(ds, 10))
  }

  predicate IsDecimalDigit(c: char) { '0' <= c <= '9' }

  /** A plain run of decimal digits. */
  predicate IsDigitText(text: string) {
    text != [] && forall i :: 0 <= i < |text| ==> IsDecimalDigit(text[i])
  }

  /** The digit values of a run of decimal digits. */
  function DecimalDigits(text: string): (ds: seq<int>)
    ensures |ds| == |text|
    ensures forall i :: 0 <= i < |text| ==> ds[i] == (text[i] as int) - ('0' as int)
  {
    seq(|text|, i requires 0 <= i < |text| => (text[i] as int) - ('0' as int))
  }

  lemma DigitPrefixOfDigits(text: string)
    requires forall i :: 0 <= i < |text| ==> IsDecimalDigit(text[i])
    ensures DigitPrefix(text, 10) == DecimalDigits(text)
  {
    forall i | 0 <= i < |text|
      ensures DigitOf(text[i], 10) == (text[i] as int) - ('0' as int)
    {
      assert IsDecimalDigit(text[i]);
    }
    var ds := DigitPrefix(text, 10);
    assert |ds| == |text|;
    assert ds == DecimalDigits(text);
  }

  /** Text starting with a decimal digit, and not with a `0x` prefix, reads its leading run of
      decimal digits. */
  lemma ParseFromDigit(text: string)
    requires text != [] && IsDecimalDigit(text[0])
    requires |text| >= 2 ==> text[1] != 'x' && text[1] != 'X'
    ensures DigitPrefix(text, 10) != []
    ensures ParseInt(text) == Some(Digits.Value(DigitPrefix(text, 10), 10))
  {
    DigitIsNotWhiteSpace(text[0]);
    assert SkipWhiteSpace(text) == text;
    assert DigitOf(text[0], 10) >= 0;
    ReadUnsigned(text);
  }

  lemma DigitIsNotWhiteSpace(c: char)
    requires IsDecimalDigit(c)
    ensures !IsWhiteSpace(c)
  {
  }

  lemma ReadUnsigned(text: string)
    requires text != [] && IsDecimalDigit(text[0]) && SkipWhiteSpace(text) == text
    requires |text| >= 2 ==> text[1] != 'x' && text[1] != 'X'
    requires DigitPrefix(text, 10) != []
    ensures ParseInt(text) == Some(Digits.Value(DigitPrefix(text, 10), 10))
  {
    assert text[0] != '-' && text[0] != '+';
    assert ParseMagnitude(text) == Some(Digits.Value(DigitPrefix(text, 10), 10));
  }

  /** A minus sign followed by a decimal digit, and not by a `0x` prefix, reads the negated
      leading run of decimal digits after the sign. */
  lemma ParseNegative(text: string)
    requires |text| >= 2 && text[0] == '-' && IsDecimalDigit(text[1])
    requires |text| >= 3 ==> text[2] != 'x' && text[2] != 'X'
    ensures DigitPrefix(text[1..], 10) != []
    ensures ParseInt(text) == Some(-Digits.Value(DigitPrefix(text[1..], 10), 10))
  {
    assert !IsWhiteSpace('-');
    assert SkipWhiteSpace(text) == text;
    assert DigitOf(text[1..][0], 10) >= 0;
    ReadNegative(text);
  }

  lemma ReadNegative(text: string)
    requires |text| >= 2 && text[0] == '-' && SkipWhiteSpace(text) == text
    requires |text| >= 3 ==> text[2] != 'x' && text[2] != 'X'
    requires DigitPrefix(text[1..], 10) != []
    ensures ParseInt(text) == Some(-Digits.Value(DigitPrefix(text[1..], 10), 10))
  {
    var u := text[1..];
    if |u| >= 2 {
      assert u[1] == text[2];
    }
  }

  /** A plain run of n decimal digits parses to its positional value, a number in [0, 10^n). */
  lemma ParseDigitText(text: string)
    requires IsDigitText(text)
    ensures ParseInt(text) == Some(Digits.Value(DecimalDigits(text), 10))
    ensures 0 <= ParseInt(text).value < Digits.Pow(10, |text|)
  {
    if |text| >= 2 {
      assert IsDecimalDigit(text[1]);
    }
    ParseFromDigit(text);
    var ds := DecimalDigits(text);
    DigitPrefixOfDigits(text);
    assert DigitPrefix(text, 10) == ds;
    assert Digits.IsDigits(ds, 10) by {
      forall i | 0 <= i < |ds| ensures 0 <= ds[i] < 10 {
        assert IsDecimalDigit(text[i]);
      }
    }
    Digits.ValueBounds(ds, 10);
  }
}
