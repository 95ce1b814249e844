/**
 * Colour values of the Paint app (src/apps/Draw/Draw.tsx): the hex colour
 * parser used by the fill tool, the RGB comparison, and the eyedropper's
 * formatter, which the parser inverts.
 */
module DrawColor {

  /** A value of a Uint8ClampedArray. */
  type Byte = b: int | 0 <= b < 256

  datatype Rgb = Rgb(r: int, g: int, b: int)
  datatype Rgba = Rgba(r: int, g: int, b: int, a: int)

  /** colorsMatch: red, green and blue agree; alpha is ignored. */
  predicate ColorsMatch(c1: Rgba, c2: Rgb) {
    c1.r == c2.r && c1.g == c2.g && c1.b == c2.b
  }

  function RgbOf(c: Rgba): Rgb {
    Rgb(c.r, c.g, c.b)
  }

  /** colorsMatch compares exactly the RGB part. */
  lemma ColorsMatchIgnoresAlpha(c: Rgba, rgb: Rgb, alpha: int)
    ensures ColorsMatch(c, rgb) <==> RgbOf(c) == rgb
    ensures ColorsMatch(c.(a := alpha), rgb) == ColorsMatch(c, rgb)
  {
  }

  // ===========================================================================
  // hexToRgb
  // ===========================================================================

  /** `[a-f\d]` under the `i` flag. */
  predicate IsHexDigit(c: char) {
    '0' <= c <= '9' || 'a' <= c <= 'f' || 'A' <= c <= 'F'
  }

  function HexValue(c: char): (v: int)
    requires IsHexDigit(c)
    ensures 0 <= v < 16
  {
    if '0' <= c <= '9' then c as int - '0' as int
    else if 'a' <= c <= 'f' then c as int - 'a' as int + 10
    else c as int - 'A' as int + 10
  }

  predicate AllHex(s: string) {
    forall i | 0 <= i < |s| :: IsHexDigit(s[i])
  }

  /** `parseInt(pair, 16)` for two hex digits. */
  function ParsePair(a: char, b: char): (v: int)
    requires IsHexDigit(a) && IsHexDigit(b)
    ensures 0 <= v < 256
  {
    16 * HexValue(a) + HexValue(b)
  }

  /** The six digits the pattern `^#?([a-f\d]{2}){3}$` captures, if it matches. */
  function HexBody(hex: string): (body: string)
  {
    if |hex| == 7 && hex[0] == '#' && AllHex(hex[1..]) then hex[1..]
    else if |hex| == 6 && AllHex(hex) then hex
    else ""
  }

  /** hexToRgb: the colour an optional `#` and six hex digits name; black for anything else. */
  function HexToRgb(hex: string): Rgb {
    var body := HexBody(hex);
    if |body| == 6 then
      Rgb(ParsePair(body[0], body[1]), ParsePair(body[2], body[3]), ParsePair(body[4], body[5]))
    else Rgb(0, 0, 0)
  }

  /**
   * The pattern: the input matches exactly when it is six hex digits,
   * optionally after a `#`, in either case; anything else gives black.
   */
  lemma {:induction false} HexToRgbAccepts(hex: string)
    ensures var accepted := (|hex| == 7 && hex[0] == '#' && AllHex(hex[1..])) || (|hex| == 6 && AllHex(hex));
            && (accepted ==> |HexBody(hex)| == 6 && AllHex(HexBody(hex)) && HexBody(hex) == hex[|hex| - 6..])
            && (!accepted ==> HexToRgb(hex) == Rgb(0, 0, 0))
            && var c := HexToRgb(hex); 0 <= c.r < 256 && 0 <= c.g < 256 && 0 <= c.b < 256
  {
  }

  /** Case does not matter: "#FFFFFF" and "#ffffff" are the same colour. */
  lemma HexToRgbCaseInsensitive(hex: string, other: string)
    requires |hex| == |other|
    requires forall i | 0 <= i < |hex| :: hex[i] == other[i] || (IsHexDigit(hex[i]) && IsHexDigit(other[i]) && HexValue(hex[i]) == HexValue(other[i]))
    ensures HexToRgb(hex) == HexToRgb(other)
  {
    if |hex| == 7 && hex[0] == '#' && AllHex(hex[1..]) {
      assert AllHex(other[1..]);
    } else if |hex| == 6 && AllHex(hex) {
      assert AllHex(other);
    }
    if |other| == 7 && other[0] == '#' && AllHex(other[1..]) {
      assert AllHex(hex[1..]);
    } else if |other| == 6 && AllHex(other) {
      assert AllHex(hex);
    }
  }

  /** ASCII case folding, as the pattern's `i` flag applies it to letters. */
  function FoldCase(c: char): char {
    if 'A' <= c <= 'Z' then (c as int + 32) as char else c
  }

  /** Two characters equal up to case are both hex digits of one value, or neither is a hex digit. */
  lemma CaseVariantValue(c: char, d: char)
    requires FoldCase(c) == FoldCase(d)
    ensures IsHexDigit(c) <==> IsHexDigit(d)
    ensures IsHexDigit(c) ==> HexValue(c) == HexValue(d)
  {
  }

  /** hexToRgb ignores case: strings equal up to ASCII case name the same colour. */
  lemma HexToRgbIgnoresCase(hex: string, other: string)
    requires |hex| == |other|
    requires forall i | 0 <= i < |hex| :: FoldCase(hex[i]) == FoldCase(other[i])
    ensures HexToRgb(hex) == HexToRgb(other)
  {
    forall i | 0 <= i < |hex|
      ensures (IsHexDigit(hex[i]) <==> IsHexDigit(other[i]))
      ensures IsHexDigit(hex[i]) ==> HexValue(hex[i]) == HexValue(other[i])
    {
      CaseVariantValue(hex[i], other[i]);
    }
    if |hex| == 7 && hex[0] == '#' && AllHex(hex[1..]) {
      assert AllHex(other[1..]);
    } else if |hex| == 6 && AllHex(hex) {
      assert AllHex(other);
    }
    if |other| == 7 && other[0] == '#' && AllHex(other[1..]) {
      assert AllHex(hex[1..]);
    } else if |other| == 6 && AllHex(other) {
      assert AllHex(hex);
    }
  }

  // ===========================================================================
  // The eyedropper's formatter
  // ===========================================================================

  /** The lower-case digit `Number.prototype.toString(16)` writes for 0..15. */
  function HexDigit(d: int): (c: char)
    requires 0 <= d < 16
    ensures IsHexDigit(c) && HexValue(c) == d
    ensures !('A' <= c <= 'F')
  {
    if d < 10 then ('0' as int + d) as char else ('a' as int + d - 10) as char
  }

  /** The number a string of hex digits denotes, most significant digit first. */
  function HexNumber(s: string): nat
    requires AllHex(s)
  {
    if s == [] then 0 else 16 * HexNumber(s[..|s| - 1]) + HexValue(s[|s| - 1])
  }

  predicate NoUpperHex(s: string) {
    forall i | 0 <= i < |s| :: !('A' <= s[i] <= 'F')
  }

  /** `n.toString(16)` for a non-negative integer: no leading zeros, lower case. */
  function ToHexString(n: nat): (s: string)
    ensures |s| >= 1 && AllHex(s) && NoUpperHex(s)
    ensures HexNumber(s) == n
    ensures s[0] == '0' ==> s == "0"
  {
    if n < 16 then [HexDigit(n)]
    else
      var prefix := ToHexString(n / 16);
      var s := prefix + [HexDigit(n % 16)];
      assert s[..|s| - 1] == prefix;
      s
  }

  /** A lower-case hex digit is the digit written for its value. */
  lemma DigitOfValue(c: char)
    requires IsHexDigit(c) && !('A' <= c <= 'F')
    ensures HexDigit(HexValue(c)) == c
  {
  }

  /** Digits without a leading zero denote a positive number. */
  lemma {:induction false} LeadingDigitPositive(s: string)
    requires |s| >= 1 && AllHex(s) && s[0] != '0'
    ensures HexNumber(s) >= 1
    decreases |s|
  {
    if |s| > 1 {
      var p := s[..|s| - 1];
      assert p[0] == s[0];
      LeadingDigitPositive(p);
    }
  }

  /**
   * The other direction of the round trip: a lower-case hex string with no
   * leading zero is what `toString(16)` writes for the number it denotes.
   */
  lemma {:induction false} HexStringOfNumber(s: string)
    requires |s| >= 1 && AllHex(s) && NoUpperHex(s) && (s[0] == '0' ==> |s| == 1)
    ensures ToHexString(HexNumber(s)) == s
    decreases |s|
  {
    var last := s[|s| - 1];
    DigitOfValue(last);
    if |s| > 1 {
      var p := s[..|s| - 1];
      assert p[0] == s[0];
      LeadingDigitPositive(p);
      HexStringOfNumber(p);
      var n := HexNumber(s);
      assert n / 16 == HexNumber(p) && n % 16 == HexValue(last);
      assert s == p + [last];
    }
  }

  /** The colour string handleEyedropper builds from a picked pixel. */
  function EyedropperHex(r: Byte, g: Byte, b: Byte): string {
    "#" + ToHexString(0x100_0000 + r * 0x1_0000 + g * 0x100 + b)[1..]
  }

  /** Two lower-case digits for a byte. */
  function ByteDigits(v: Byte): string {
    [HexDigit(v / 16), HexDigit(v % 16)]
  }

  /**
   * The leading 1 of 0x1000000 pins the length: the string is "1" followed
   * by two digits per channel, each channel zero-padded.
   */
  lemma {:induction false} SevenDigits(r: Byte, g: Byte, b: Byte)
    ensures ToHexString(0x100_0000 + r * 0x1_0000 + g * 0x100 + b)
            == "1" + ByteDigits(r) + ByteDigits(g) + ByteDigits(b)
  {
    var n := 0x100_0000 + r * 0x1_0000 + g * 0x100 + b;
    var n1 := 0x10_0000 + r * 0x1000 + g * 0x10 + b / 16;
    var n2 := 0x1_0000 + r * 0x100 + g;
    var n3 := 0x1000 + r * 0x10 + g / 16;
    var n4 := 0x100 + r;
    var n5 := 0x10 + r / 16;
    assert n / 16 == n1 && n % 16 == b % 16;
    assert n1 / 16 == n2 && n1 % 16 == b / 16;
    assert n2 / 16 == n3 && n2 % 16 == g % 16;
    assert n3 / 16 == n4 && n3 % 16 == g / 16;
    assert n4 / 16 == n5 && n4 % 16 == r % 16;
    assert n5 / 16 == 1 && n5 % 16 == r / 16;
    assert ToHexString(n5) == "1" + [HexDigit(r / 16)];
    assert ToHexString(n4) == "1" + ByteDigits(r);
    assert ToHexString(n3) == "1" + ByteDigits(r) + [HexDigit(g / 16)];
    assert ToHexString(n2) == "1" + ByteDigits(r) + ByteDigits(g);
    assert ToHexString(n1) == "1" + ByteDigits(r) + ByteDigits(g) + [HexDigit(b / 16)];
    assert ToHexString(n) == "1" + ByteDigits(r) + ByteDigits(g) + ByteDigits(b);
  }

  /**
   * The eyedropper writes `#` and six lower-case hex digits, and hexToRgb
   * reads back exactly the picked red, green and blue.
   */
  lemma {:induction false} EyedropperRoundTrip(r: Byte, g: Byte, b: Byte)
    ensures var hex := EyedropperHex(r, g, b);
            && |hex| == 7 && hex[0] == '#'
            && (forall i | 1 <= i < 7 :: IsHexDigit(hex[i]) && !('A' <= hex[i] <= 'F'))
            && HexToRgb(hex) == Rgb(r, g, b)
  {
    SevenDigits(r, g, b);
    var hex := EyedropperHex(r, g, b);
    assert hex == "#" + ByteDigits(r) + ByteDigits(g) + ByteDigits(b);
    assert HexBody(hex) == hex[1..];
  }
}
