/** The `UIColor` extension that reads colours written in hex notation
    (`#RGB`, `#RGBA`, `#RRGGBB`, `#RRGGBBAA`). A colour is kept as integer
    channels over a common scale: UIKit receives `red / scale` and so on, so
    nothing here depends on floating point. */
module HexColors {
  import opened Wrappers

  /** A colour whose channels are fractions `channel / scale`. */
  datatype Color = Color(red: nat, green: nat, blue: nat, alpha: nat, scale: nat)

  /** The divisors of the short forms (one digit per channel) and of the
      long forms (two digits per channel). */
  const ShortScale: nat := 15
  const LongScale: nat := 255

  /** Every channel lies between 0 and 1 once divided by the scale. */
  predicate ValidColor(c: Color) {
    && (c.scale == ShortScale || c.scale == LongScale)
    && c.red <= c.scale && c.green <= c.scale && c.blue <= c.scale && c.alpha <= c.scale
  }

  predicate IsHexDigit(ch: char) {
    '0' <= ch <= '9' || 'a' <= ch <= 'f' || 'A' <= ch <= 'F'
  }

  predicate AllHexDigits(s: string) {
    forall i :: 0 <= i < |s| ==> IsHexDigit(s[i])
  }

  function HexDigitValue(ch: char): (d: nat)
    requires IsHexDigit(ch)
    ensures d < 16
  {
    if '0' <= ch <= '9' then (ch as int) - ('0' as int)
    else if 'a' <= ch <= 'f' then (ch as int) - ('a' as int) + 10
    else (ch as int) - ('A' as int) + 10
  }

  function Pow16(n: nat): (p: nat)
    ensures p >= 1
  {
    if n == 0 then 1 else 16 * Pow16(n - 1)
  }

  lemma {:induction false} Pow16Monotone(a: nat, b: nat)
    requires a <= b
    ensures Pow16(a) <= Pow16(b)
    decreases b
  {
    if a < b {
      Pow16Monotone(a, b - 1);
    }
  }

  /** The value of a string of hex digits, most significant first; it fits
      in as many hex digits as the string has. */
  function HexValue(digits: string): (v: nat)
    requires AllHexDigits(digits)
    ensures v < Pow16(|digits|)
  {
    if digits == [] then 0
    else HexValue(digits[..|digits| - 1]) * 16 + HexDigitValue(digits[|digits| - 1])
  }

  /** The length of the leading run of hex digits. */
  function HexRun(s: string): (n: nat)
    ensures n <= |s| && AllHexDigits(s[..n])
    ensures n < |s| ==> !IsHexDigit(s[n])
  {
    if s == [] || !IsHexDigit(s[0]) then 0
    else
      var n := 1 + HexRun(s[1..]);
      assert forall i :: 1 <= i < n ==> s[..n][i] == s[1..][..n - 1][i - 1];
      n
  }

  /** `Scanner(string: s).scanHexInt32(&hexValue)`: the value of the leading
      run of hex digits, failing when `s` does not start with one. The value
      never needs more hex digits than `s` has. */
  function ScanHex(s: string): (r: Option<nat>)
    ensures r.Some? <==> |s| > 0 && IsHexDigit(s[0])
    ensures r.Some? ==> r.value < Pow16(|s|)
  {
    var n := HexRun(s);
    if n == 0 then None
    else
      Pow16Monotone(n, |s|);
      Some(HexValue(s[..n]))
  }

  /** `UIColor(hex3:)`: the three nibbles `(v & 0xF00) >> 8`, `(v & 0x0F0) >> 4`
      and `v & 0x00F` on scale 15, alpha at its default of 1. */
  function FromHex3(hex3: nat): (c: Color)
    requires hex3 < 0x1_0000
    ensures ValidColor(c) && c.scale == ShortScale && c.alpha == ShortScale
  {
    Color((hex3 / 0x100) % 0x10, (hex3 / 0x10) % 0x10, hex3 % 0x10, ShortScale, ShortScale)
  }

  /** `UIColor(hex4:)`: four nibbles, the lowest one being alpha. */
  function FromHex4(hex4: nat): (c: Color)
    requires hex4 < 0x1_0000
    ensures ValidColor(c) && c.scale == ShortScale
  {
    Color((hex4 / 0x1000) % 0x10, (hex4 / 0x100) % 0x10, (hex4 / 0x10) % 0x10, hex4 % 0x10, ShortScale)
  }

  /** `UIColor(hex6:)`: the bytes `(v & 0xFF0000) >> 16`, `(v & 0x00FF00) >> 8`
      and `v & 0x0000FF` on scale 255, alpha at its default of 1. */
  function FromHex6(hex6: nat): (c: Color)
    requires hex6 < 0x1_0000_0000
    ensures ValidColor(c) && c.scale == LongScale && c.alpha == LongScale
  {
    Color((hex6 / 0x1_0000) % 0x100, (hex6 / 0x100) % 0x100, hex6 % 0x100, LongScale, LongScale)
  }

  /** `UIColor(hex8:)`: four bytes, highest first, the lowest one being alpha. */
  function FromHex8(hex8: nat): (c: Color)
    requires hex8 < 0x1_0000_0000
    ensures ValidColor(c) && c.scale == LongScale
  {
    Color((hex8 / 0x100_0000) % 0x100, (hex8 / 0x1_0000) % 0x100, (hex8 / 0x100) % 0x100, hex8 % 0x100, LongScale)
  }

  /** `UIColor.hex(_: String)`: a '#', a scan for hex digits, then a choice
      on the length of everything after the '#' (not on how many digits the
      scan read). A colour comes back exactly when the text has one of the
      four lengths and a hex digit follows the '#'; the short forms give
      scale 15, the long ones 255, and the alpha-less forms a full alpha. */
  function Hex(rgba: string): (r: Option<Color>)
    ensures r.Some? <==> |rgba| in {4, 5, 7, 9} && rgba[0] == '#' && IsHexDigit(rgba[1])
    ensures r.Some? ==> ValidColor(r.value)
    ensures r.Some? ==> (r.value.scale == ShortScale <==> |rgba| <= 5)
    ensures r.Some? && (|rgba| == 4 || |rgba| == 7) ==> r.value.alpha == r.value.scale
  {
    if !(|rgba| > 0 && rgba[0] == '#') then None
    else
      var hexString := rgba[1..];
      var scanned := ScanHex(hexString);
      if scanned.None? then None
      else
        var hexValue := scanned.value;
        assert Pow16(3) == 0x1000 && Pow16(4) == 0x1_0000;
        assert Pow16(6) == 0x100_0000 && Pow16(8) == 0x1_0000_0000;
        match |hexString|
        case 3 => Some(FromHex3(hexValue))
        case 4 => Some(FromHex4(hexValue))
        case 6 => Some(FromHex6(hexValue))
        case 8 => Some(FromHex8(hexValue))
        case _ => None
  }

  /** `UIColor.hex(_: String?)`: no text, no colour. */
  function HexOptional(rgba: Option<string>): (r: Option<Color>)
    ensures rgba.None? ==> r.None?
    ensures rgba.Some? ==> r == Hex(rgba.value)
  {
    match rgba
    case Some(value) => Hex(value)
    case None => None
  }

  /** `UIColor(_:defaultColor:)`, which repeats the checks of `Hex` with a
      fallback colour in place of nil: it is the colour `Hex` reads whenever
      there is one, and the fallback otherwise. */
  function ColorOr(rgba: string, defaultColor: Color): (r: Color)
    ensures Hex(rgba).Some? ==> r == Hex(rgba).value
    ensures Hex(rgba).None? ==> r == defaultColor
  {
    if !(|rgba| > 0 && rgba[0] == '#') then defaultColor
    else
      var hexString := rgba[1..];
      var scanned := ScanHex(hexString);
      if scanned.None? then defaultColor
      else
        var hexValue := scanned.value;
        assert Pow16(3) == 0x1000 && Pow16(4) == 0x1_0000;
        assert Pow16(6) == 0x100_0000 && Pow16(8) == 0x1_0000_0000;
        match |hexString|
        case 3 => FromHex3(hexValue)
        case 4 => FromHex4(hexValue)
        case 6 => FromHex6(hexValue)
        case 8 => FromHex8(hexValue)
        case _ => defaultColor
  }

  // ---------------------------------------------------------------------
  // What each form means digit by digit

  lemma HexValueStep(t: string, k: nat)
    requires k < |t| && AllHexDigits(t)
    ensures HexValue(t[..k + 1]) == HexValue(t[..k]) * 16 + HexDigitValue(t[k])
  {
    assert t[..k + 1][..k] == t[..k];
  }

  /** When everything after the '#' is a hex digit, the scan reads all of it. */
  lemma ScanAll(t: string)
    requires |t| > 0 && AllHexDigits(t)
    ensures ScanHex(t) == Some(HexValue(t))
  {
    assert HexRun(t) == |t|;
    assert t[..|t|] == t;
  }

  lemma HexValue3(t: string)
    requires |t| == 3 && AllHexDigits(t)
    ensures HexValue(t) == HexDigitValue(t[0]) * 0x100 + HexDigitValue(t[1]) * 0x10 + HexDigitValue(t[2])
  {
    HexValueStep(t, 0);
    HexValueStep(t, 1);
    HexValueStep(t, 2);
    assert t[..0] == [] && t[..3] == t;
  }

  lemma HexValue4(t: string)
    requires |t| == 4 && AllHexDigits(t)
    ensures HexValue(t) == HexDigitValue(t[0]) * 0x1000 + HexDigitValue(t[1]) * 0x100
                           + HexDigitValue(t[2]) * 0x10 + HexDigitValue(t[3])
  {
    HexValueStep(t, 0);
    HexValueStep(t, 1);
    HexValueStep(t, 2);
    HexValueStep(t, 3);
    assert t[..0] == [] && t[..4] == t;
  }

  lemma HexValue6(t: string)
    requires |t| == 6 && AllHexDigits(t)
    ensures HexValue(t) == (HexDigitValue(t[0]) * 16 + HexDigitValue(t[1])) * 0x1_0000
                           + (HexDigitValue(t[2]) * 16 + HexDigitValue(t[3])) * 0x100
                           + (HexDigitValue(t[4]) * 16 + HexDigitValue(t[5]))
  {
    var high := t[..3];
    assert AllHexDigits(high) by {
      forall i | 0 <= i < 3 ensures IsHexDigit(high[i]) {
        assert high[i] == t[i];
      }
    }
    HexValue3(high);
    assert high[0] == t[0] && high[1] == t[1] && high[2] == t[2];
    HexValueStep(t, 3);
    HexValueStep(t, 4);
    HexValueStep(t, 5);
    assert t[..6] == t;
  }

  lemma HexValue8(t: string)
    requires |t| == 8 && AllHexDigits(t)
    ensures HexValue(t) == (HexDigitValue(t[0]) * 16 + HexDigitValue(t[1])) * 0x100_0000
                           + (HexDigitValue(t[2]) * 16 + HexDigitValue(t[3])) * 0x1_0000
                           + (HexDigitValue(t[4]) * 16 + HexDigitValue(t[5])) * 0x100
                           + (HexDigitValue(t[6]) * 16 + HexDigitValue(t[7]))
  {
    var high := t[..6];
    assert AllHexDigits(high) by {
      forall i | 0 <= i < 6 ensures IsHexDigit(high[i]) {
        assert high[i] == t[i];
      }
    }
    HexValue6(high);
    assert high[0] == t[0] && high[1] == t[1] && high[2] == t[2];
    assert high[3] == t[3] && high[4] == t[4] && high[5] == t[5];
    HexValueStep(t, 6);
    HexValueStep(t, 7);
    assert t[..7][..6] == high && t[..8] == t;
    var v6 := HexValue(high);
    assert HexValue(t) == (v6 * 16 + HexDigitValue(t[6])) * 16 + HexDigitValue(t[7]);
  }

  /** With nothing but hex digits after the '#', `Hex` hands the value of
      all of them to the initializer the length selects. */
  lemma ReadAll(t: string)
    requires |t| in {3, 4, 6, 8} && AllHexDigits(t)
    ensures |t| == 3 ==> HexValue(t) < 0x1000 && Hex("#" + t) == Some(FromHex3(HexValue(t)))
    ensures |t| == 4 ==> HexValue(t) < 0x1_0000 && Hex("#" + t) == Some(FromHex4(HexValue(t)))
    ensures |t| == 6 ==> HexValue(t) < 0x100_0000 && Hex("#" + t) == Some(FromHex6(HexValue(t)))
    ensures |t| == 8 ==> HexValue(t) < 0x1_0000_0000 && Hex("#" + t) == Some(FromHex8(HexValue(t)))
  {
    assert ("#" + t)[1..] == t;
    ScanAll(t);
    assert Pow16(3) == 0x1000 && Pow16(4) == 0x1_0000;
    assert Pow16(6) == 0x100_0000 && Pow16(8) == 0x1_0000_0000;
  }

  // Euclidean division by a power of two splits a number into its high and
  // low bits: what the masks and shifts of the initializers compute.

  lemma Split16(hi: nat, lo: nat)
    requires lo < 0x10
    ensures (hi * 0x10 + lo) / 0x10 == hi && (hi * 0x10 + lo) % 0x10 == lo
  {
  }

  lemma Split256(hi: nat, lo: nat)
    requires lo < 0x100
    ensures (hi * 0x100 + lo) / 0x100 == hi && (hi * 0x100 + lo) % 0x100 == lo
  {
  }

  lemma Split4096(hi: nat, lo: nat)
    requires lo < 0x1000
    ensures (hi * 0x1000 + lo) / 0x1000 == hi
  {
  }

  lemma Split65536(hi: nat, lo: nat)
    requires lo < 0x1_0000
    ensures (hi * 0x1_0000 + lo) / 0x1_0000 == hi
  {
  }

  lemma Split16M(hi: nat, lo: nat)
    requires lo < 0x100_0000
    ensures (hi * 0x100_0000 + lo) / 0x100_0000 == hi
  {
  }

  lemma Nibbles3(r: nat, g: nat, b: nat)
    requires r < 16 && g < 16 && b < 16
    ensures FromHex3(r * 0x100 + g * 0x10 + b) == Color(r, g, b, ShortScale, ShortScale)
  {
    Split16(r * 0x10 + g, b);
    Split16(r, g);
    Split256(r, g * 0x10 + b);
  }

  lemma Nibbles4(r: nat, g: nat, b: nat, a: nat)
    requires r < 16 && g < 16 && b < 16 && a < 16
    ensures FromHex4(r * 0x1000 + g * 0x100 + b * 0x10 + a) == Color(r, g, b, a, ShortScale)
  {
    Split16(r * 0x100 + g * 0x10 + b, a);
    Split16(r * 0x10 + g, b);
    Split256(r * 0x10 + g, b * 0x10 + a);
    Split16(r, g);
    Split4096(r, g * 0x100 + b * 0x10 + a);
  }

  lemma Bytes6(r: nat, g: nat, b: nat)
    requires r < 256 && g < 256 && b < 256
    ensures FromHex6(r * 0x1_0000 + g * 0x100 + b) == Color(r, g, b, LongScale, LongScale)
  {
    Split256(r * 0x100 + g, b);
    Split256(r, g);
    Split65536(r, g * 0x100 + b);
  }

  lemma Bytes8(r: nat, g: nat, b: nat, a: nat)
    requires r < 256 && g < 256 && b < 256 && a < 256
    ensures FromHex8(r * 0x100_0000 + g * 0x1_0000 + b * 0x100 + a) == Color(r, g, b, a, LongScale)
  {
    Split256(r * 0x1_0000 + g * 0x100 + b, a);
    Split256(r * 0x100 + g, b);
    Split65536(r * 0x100 + g, b * 0x100 + a);
    Split256(r, g);
    Split16M(r, g * 0x1_0000 + b * 0x100 + a);
  }

  /** `#RGB`: each digit is one channel on scale 15, alpha full. */
  lemma Hex3Channels(t: string)
    requires |t| == 3 && AllHexDigits(t)
    ensures Hex("#" + t) == Some(Color(HexDigitValue(t[0]), HexDigitValue(t[1]), HexDigitValue(t[2]),
                                       ShortScale, ShortScale))
  {
    ReadAll(t);
    HexValue3(t);
    Nibbles3(HexDigitValue(t[0]), HexDigitValue(t[1]), HexDigitValue(t[2]));
  }

  /** `#RGBA`: the fourth digit is alpha on scale 15. */
  lemma Hex4Channels(t: string)
    requires |t| == 4 && AllHexDigits(t)
    ensures Hex("#" + t) == Some(Color(HexDigitValue(t[0]), HexDigitValue(t[1]), HexDigitValue(t[2]),
                                       HexDigitValue(t[3]), ShortScale))
  {
    ReadAll(t);
    HexValue4(t);
    Nibbles4(HexDigitValue(t[0]), HexDigitValue(t[1]), HexDigitValue(t[2]), HexDigitValue(t[3]));
  }

  /** `#RRGGBB`: each pair of digits is one channel on scale 255, alpha full. */
  lemma Hex6Channels(t: string)
    requires |t| == 6 && AllHexDigits(t)
    ensures Hex("#" + t) == Some(Color(
              HexDigitValue(t[0]) * 16 + HexDigitValue(t[1]), HexDigitValue(t[2]) * 16 + HexDigitValue(t[3]),
              HexDigitValue(t[4]) * 16 + HexDigitValue(t[5]), LongScale, LongScale))
  {
    ReadAll(t);
    HexValue6(t);
    Bytes6(HexDigitValue(t[0]) * 16 + HexDigitValue(t[1]), HexDigitValue(t[2]) * 16 + HexDigitValue(t[3]),
           HexDigitValue(t[4]) * 16 + HexDigitValue(t[5]));
  }

  /** `#RRGGBBAA`: the four pairs are red, green, blue and alpha, highest first. */
  lemma Hex8Channels(t: string)
    requires |t| == 8 && AllHexDigits(t)
    ensures Hex("#" + t) == Some(Color(
              HexDigitValue(t[0]) * 16 + HexDigitValue(t[1]), HexDigitValue(t[2]) * 16 + HexDigitValue(t[3]),
              HexDigitValue(t[4]) * 16 + HexDigitValue(t[5]), HexDigitValue(t[6]) * 16 + HexDigitValue(t[7]),
              LongScale))
  {
    ReadAll(t);
    HexValue8(t);
    Bytes8(HexDigitValue(t[0]) * 16 + HexDigitValue(t[1]), HexDigitValue(t[2]) * 16 + HexDigitValue(t[3]),
           HexDigitValue(t[4]) * 16 + HexDigitValue(t[5]), HexDigitValue(t[6]) * 16 + HexDigitValue(t[7]));
  }

  // ---------------------------------------------------------------------
  // Writing a colour back in hex notation

  function HexDigitChar(d: nat): (ch: char)
    requires d < 16
    ensures IsHexDigit(ch) && HexDigitValue(ch) == d
  {
    if d < 10 then (('0' as int) + d) as char else (('A' as int) + d - 10) as char
  }

  function ByteChars(b: nat): string
    requires b < 256
  {
    [HexDigitChar(b / 16), HexDigitChar(b % 16)]
  }

  /** The hex notation of a colour: the short forms on scale 15, the long
      forms on scale 255, the alpha digits left out when alpha is full. */
  function Encode(c: Color): string
    requires ValidColor(c)
  {
    if c.scale == ShortScale then
      "#" + [HexDigitChar(c.red), HexDigitChar(c.green), HexDigitChar(c.blue)]
      + (if c.alpha == ShortScale then [] else [HexDigitChar(c.alpha)])
    else
      "#" + ByteChars(c.red) + ByteChars(c.green) + ByteChars(c.blue)
      + (if c.alpha == LongScale then [] else ByteChars(c.alpha))
  }

  lemma ByteDigits(b: nat)
    requires b < 256
    ensures HexDigitValue(ByteChars(b)[0]) * 16 + HexDigitValue(ByteChars(b)[1]) == b
  {
  }

  lemma EncodeShort(c: Color)
    requires ValidColor(c) && c.scale == ShortScale
    ensures Hex(Encode(c)) == Some(c)
  {
    var t := Encode(c)[1..];
    assert Encode(c) == "#" + t;
    if c.alpha == ShortScale {
      assert t == [HexDigitChar(c.red), HexDigitChar(c.green), HexDigitChar(c.blue)];
      Hex3Channels(t);
    } else {
      assert t == [HexDigitChar(c.red), HexDigitChar(c.green), HexDigitChar(c.blue), HexDigitChar(c.alpha)];
      Hex4Channels(t);
    }
  }

  lemma EncodeLong(c: Color)
    requires ValidColor(c) && c.scale == LongScale
    ensures Hex(Encode(c)) == Some(c)
  {
    if c.alpha == LongScale {
      EncodeLongOpaque(c);
    } else {
      EncodeLongTranslucent(c);
    }
  }

  lemma EncodeLongOpaque(c: Color)
    requires ValidColor(c) && c.scale == LongScale && c.alpha == LongScale
    ensures Hex(Encode(c)) == Some(c)
  {
    var r, g, b := ByteChars(c.red), ByteChars(c.green), ByteChars(c.blue);
    var t := r + g + b;
    assert Encode(c) == "#" + t;
    assert t[0] == r[0] && t[1] == r[1] && t[2] == g[0] && t[3] == g[1] && t[4] == b[0] && t[5] == b[1];
    ByteDigits(c.red);
    ByteDigits(c.green);
    ByteDigits(c.blue);
    Hex6Channels(t);
  }

  lemma EncodeLongTranslucent(c: Color)
    requires ValidColor(c) && c.scale == LongScale && c.alpha != LongScale
    ensures Hex(Encode(c)) == Some(c)
  {
    var r, g, b, a := ByteChars(c.red), ByteChars(c.green), ByteChars(c.blue), ByteChars(c.alpha);
    var t := r + g + b + a;
    assert Encode(c) == "#" + t;
    assert t[0] == r[0] && t[1] == r[1] && t[2] == g[0] && t[3] == g[1];
    assert t[4] == b[0] && t[5] == b[1] && t[6] == a[0] && t[7] == a[1];
    ByteDigits(c.red);
    ByteDigits(c.green);
    ByteDigits(c.blue);
    ByteDigits(c.alpha);
    Hex8Channels(t);
  }

  /** Reading back the hex notation of a colour gives that colour. */
  lemma HexEncodeRoundTrip(c: Color)
    requires ValidColor(c)
    ensures Hex(Encode(c)) == Some(c)
  {
    if c.scale == ShortScale {
      EncodeShort(c);
    } else {
      EncodeLong(c);
    }
  }

  /** The length that picks the form is that of the whole text after the
      '#', not of the digits the scan read: "#12G" is read as the 3-digit
      form of 0x012, although 'G' is not a hex digit. */
  lemma LengthCountsWholeSuffix()
    ensures Hex("#12G") == Some(Color(0, 1, 2, ShortScale, ShortScale))
  {
    var t := "12G";
    assert "#12G"[1..] == t;
    assert HexRun(t) == 2 by {
      assert t[1..] == "2G" && t[1..][1..] == "G";
    }
    assert t[..2] == "12" && t[..2][..1] == "1";
    assert HexValue(t[..2]) == 0x12;
    Nibbles3(0, 1, 2);
  }
}
