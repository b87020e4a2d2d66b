/**
  JavaScript's `parseInt(string, 16)` as the send page applies it to the
  embed colour (`parseInt(embedColor.slice(1), 16)`), following section
  19.2.5 of ECMA-262: skip leading white space, take an optional sign, drop
  an optional `0x`/`0X`, read the longest run of hexadecimal digits, and give
  `NaN` when that run is empty. The colour picker's own output format,
  `#rrggbb` in lower case, is the partner: every such string parses back to
  the colour it encodes.
 */
module ParseInt {
  import opened JsValues

  /**
    StrWhiteSpaceChar of ECMA-262: TAB, VT, FF, ZWNBSP, the space separators
    of Unicode category Zs, and the four line terminators.
   */
  predicate IsStrWhiteSpace(c: char) {
    || c == '\t' || c == '\U{000B}' || c == '\U{000C}' || c == '\U{FEFF}'
    || c == ' ' || c == '\U{00A0}' || c == '\U{1680}'
    || ('\U{2000}' <= c <= '\U{200A}')
    || c == '\U{202F}' || c == '\U{205F}' || c == '\U{3000}'
    || c == '\n' || c == '\r' || c == '\U{2028}' || c == '\U{2029}'
  }

  predicate IsHexDigit(c: char) {
    ('0' <= c <= '9') || ('a' <= c <= 'f') || ('A' <= c <= 'F')
  }

  predicate AllHex(s: string) {
    forall i :: 0 <= i < |s| ==> IsHexDigit(s[i])
  }

  function DigitValue(c: char): (d: nat)
    requires IsHexDigit(c)
    ensures d < 16
  {
    if '0' <= c <= '9' then c as int - '0' as int
    else if 'a' <= c <= 'f' then c as int - 'a' as int + 10
    else c as int - 'A' as int + 10
  }

  /** The lower-case digit for a value below 16: the partner of DigitValue. */
  function DigitChar(d: nat): (c: char)
    requires d < 16
    ensures IsHexDigit(c) && DigitValue(c) == d
  {
    if d < 10 then ('0' as int + d) as char else ('a' as int + d - 10) as char
  }

  function Pow16(k: nat): (p: nat)
    ensures p >= 1
  {
    if k == 0 then 1 else 16 * Pow16(k - 1)
  }

  /** The value of a run of hexadecimal digits, most significant first. */
  function HexValue(digits: string): (n: nat)
    requires AllHex(digits)
    ensures n < Pow16(|digits|)
  {
    if |digits| == 0 then 0
    else HexValue(digits[..|digits| - 1]) * 16 + DigitValue(digits[|digits| - 1])
  }

  /** The input with its leading white space removed. */
  function TrimStart(s: string): (t: string)
    ensures |t| <= |s| && t == s[|s| - |t|..]
    ensures forall i :: 0 <= i < |s| - |t| ==> IsStrWhiteSpace(s[i])
    ensures |t| > 0 ==> !IsStrWhiteSpace(t[0])
  {
    if |s| > 0 && IsStrWhiteSpace(s[0]) then TrimStart(s[1..]) else s
  }

  /** The longest prefix made of hexadecimal digits. */
  function HexRun(s: string): (run: string)
    ensures |run| <= |s| && run == s[..|run|] && AllHex(run)
    ensures |run| < |s| ==> !IsHexDigit(s[|run|])
  {
    if |s| > 0 && IsHexDigit(s[0]) then [s[0]] + HexRun(s[1..]) else ""
  }

  /** The text after an optional leading sign. */
  function StripSign(t: string): string {
    if |t| > 0 && (t[0] == '-' || t[0] == '+') then t[1..] else t
  }

  /** The text after an optional `0x` or `0X`, which radix 16 allows. */
  function StripHexPrefix(u: string): string {
    if |u| >= 2 && u[0] == '0' && (u[1] == 'x' || u[1] == 'X') then u[2..] else u
  }

  /**
    `parseInt(s, 16)`. Negative zero is reported as zero. A number is read
    from at most every character of the input, so its magnitude stays below
    16 to the input's length; the empty string, and a string whose first
    character is neither white space, a sign nor a digit, give `NaN`.
   */
  function ParseHex(s: string): (n: Number)
    ensures n.Int? ==> -(Pow16(|s|) as int) < n.i < Pow16(|s|)
    ensures |s| == 0 ==> n == NaN
    ensures |s| > 0 && !IsStrWhiteSpace(s[0]) && !IsHexDigit(s[0]) && s[0] != '-' && s[0] != '+' ==> n == NaN
  {
    var t := TrimStart(s);
    var negative := |t| > 0 && t[0] == '-';
    var run := HexRun(StripHexPrefix(StripSign(t)));
    Pow16Monotone(|run|, |s|);
    if run == "" then NaN
    else if negative then Int(-(HexValue(run) as int))
    else Int(HexValue(run))
  }

  /** Powers of 16 grow with the exponent. */
  lemma {:induction false} Pow16Monotone(k: nat, m: nat)
    requires k <= m
    ensures Pow16(k) <= Pow16(m)
  {
    if k < m {
      Pow16Monotone(k, m - 1);
    }
  }

  /**
    JavaScript's `s.slice(1)`: everything after the first character, one
    character shorter than `s`; the empty string stays empty.
   */
  function DropFirst(s: string): (t: string)
    ensures |s| > 0 ==> |t| == |s| - 1 && s == [s[0]] + t
    ensures |s| == 0 ==> t == ""
  {
    if |s| == 0 then "" else s[1..]
  }

  /**
    The numeric embed colour the page computes from its colour field: the
    characters after the `#` are read, so a field of one character or none
    gives `NaN`, and a number from `k` digits after the `#` stays below 16 to
    the `k`.
   */
  function ColorNumber(embedColor: string): (c: Number)
    ensures c.Int? ==> |embedColor| >= 2 && -(Pow16(|embedColor| - 1) as int) < c.i < Pow16(|embedColor| - 1)
  {
    var digits := DropFirst(embedColor);
    if |embedColor| < 2 then
      assert digits == "";
      ParseHex(digits)
    else
      assert Pow16(|digits|) == Pow16(|embedColor| - 1);
      ParseHex(digits)
  }

  /** `width` lower-case hexadecimal digits of `n`, zero-padded on the left. */
  function ToHex(n: nat, width: nat): (digits: string)
    ensures |digits| == width && AllHex(digits)
  {
    if width == 0 then "" else ToHex(n / 16, width - 1) + [DigitChar(n % 16)]
  }

  /** Printing `width` digits and reading them back gives the number, when it fits. */
  lemma {:induction false} HexValueOfToHex(n: nat, width: nat)
    requires n < Pow16(width)
    ensures HexValue(ToHex(n, width)) == n
  {
    if width > 0 {
      var digits := ToHex(n, width);
      HexValueOfToHex(n / 16, width - 1);
      assert digits[..width - 1] == ToHex(n / 16, width - 1);
      assert digits[width - 1] == DigitChar(n % 16);
    }
  }

  /** A string that is all hexadecimal digits is read in full, no prefix rules applying. */
  lemma ParseAllHex(s: string)
    requires |s| > 0 && AllHex(s)
    ensures ParseHex(s) == Int(HexValue(s))
  {
    HexDigitIsPlain(s[0]);
    assert TrimStart(s) == s;
    assert StripSign(s) == s;
    if |s| >= 2 {
      HexDigitIsPlain(s[1]);
    }
    assert StripHexPrefix(s) == s;
    HexRunOfAllHex(s);
  }

  /** A hexadecimal digit is neither white space, a sign nor the `x` of a `0x` prefix. */
  lemma HexDigitIsPlain(c: char)
    requires IsHexDigit(c)
    ensures !IsStrWhiteSpace(c) && c != '-' && c != '+' && c != 'x' && c != 'X'
  {
  }

  lemma {:induction false} HexRunOfAllHex(s: string)
    requires AllHex(s)
    ensures HexRun(s) == s
  {
    if |s| > 0 {
      HexRunOfAllHex(s[1..]);
    }
  }

  /**
    The value a colour picker produces, `#` and six lower-case digits, comes
    back as exactly the colour it encodes.
   */
  lemma PickerColorRoundTrip(rgb: nat)
    requires rgb < 0x100_0000
    ensures ColorNumber("#" + ToHex(rgb, 6)) == Int(rgb)
  {
    assert Pow16(6) == 0x100_0000;
    var digits := ToHex(rgb, 6);
    assert DropFirst("#" + digits) == digits;
    ParseAllHex(digits);
    HexValueOfToHex(rgb, 6);
  }

  /** The form field's pattern: `#` then six or three hexadecimal digits. */
  predicate MatchesColorPattern(s: string) {
    (|s| == 7 || |s| == 4) && s[0] == '#' && AllHex(s[1..])
  }

  /**
    Every colour the form's pattern admits is a non-negative number that fits
    in 24 bits. The three-digit shorthand is read as a three-digit number, so
    `#fff` gives 4095 rather than the 16777215 of the six-digit `#ffffff`.
   */
  lemma PatternColorsFit(s: string)
    requires MatchesColorPattern(s)
    ensures ColorNumber(s).Int? && 0 <= ColorNumber(s).i < 0x100_0000
    ensures |s| == 4 ==> ColorNumber(s).i < 0x1000
  {
    ParseAllHex(s[1..]);
    assert Pow16(3) == 0x1000 && Pow16(6) == 0x100_0000;
  }

  /** The empty colour field gives `NaN`. */
  lemma EmptyColorIsNaN()
    ensures ColorNumber("") == NaN
  {
  }
}
