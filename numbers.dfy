/** The two string-to-number conversions the decoder relies on:
    `Double(String)` (for layout constants, corner radii and font sizes) and
    `Int(String)` (the fallback in the layout-argument decoder). Doubles are
    modelled as exact reals. */
module Numbers {
  import opened Wrappers

  /** Bounds of Swift's 64-bit `Int`. */
  const IntMin: int := -0x8000_0000_0000_0000
  const IntMax: int := 0x7FFF_FFFF_FFFF_FFFF

  predicate IsDigit(c: char) {
    '0' <= c <= '9'
  }

  predicate AllDigits(s: string) {
    forall i :: 0 <= i < |s| ==> IsDigit(s[i])
  }

  function DigitValue(c: char): (d: nat)
    requires IsDigit(c)
    ensures d < 10
  {
    (c as int) - ('0' as int)
  }

  /** The value of a string of decimal digits, most significant first. */
  function DigitsValue(s: string): nat
    requires AllDigits(s)
  {
    if s == [] then 0 else DigitsValue(s[..|s| - 1]) * 10 + DigitValue(s[|s| - 1])
  }

  function Pow10(n: nat): (p: nat)
    ensures p >= 1
  {
    if n == 0 then 1 else 10 * Pow10(n - 1)
  }

  /** The characters a numeral of either parser is made of. */
  predicate IsNumeralChar(c: char) {
    IsDigit(c) || c == '+' || c == '-' || c == '.'
  }

  /** Splits off one leading sign: whether it was a minus, and the rest. */
  function SplitSign(s: string): (bool, string) {
    if |s| > 0 && (s[0] == '+' || s[0] == '-') then (s[0] == '-', s[1..]) else (false, s)
  }

  /** The index of the first '.', or `|s|` when there is none. */
  function DotIndex(s: string): (i: nat)
    ensures i <= |s|
    ensures forall j :: 0 <= j < i ==> s[j] != '.'
    ensures i < |s| ==> s[i] == '.'
  {
    if s == [] then 0 else if s[0] == '.' then 0 else 1 + DotIndex(s[1..])
  }

  /** Swift's `Int(String)`: an optional sign and one or more decimal
      digits, whose value must fit in a 64-bit `Int`. */
  function ParseInt(s: string): (r: Option<int>)
    ensures r.Some? ==> IntMin <= r.value <= IntMax
  {
    var (negative, body) := SplitSign(s);
    if body == [] || !AllDigits(body) then None
    else
      var magnitude: int := DigitsValue(body);
      var v := if negative then -magnitude else magnitude;
      if IntMin <= v <= IntMax then Some(v) else None
  }

  /** Swift's `Double(String)` on plain decimal notation: an optional sign,
      digits, optionally a '.' and more digits, with at least one digit in
      all. Every accepted string is made of numeral characters only. */
  function ParseDouble(s: string): (r: Option<real>)
    ensures r.Some? ==> forall i :: 0 <= i < |s| ==> IsNumeralChar(s[i])
    ensures r.Some? ==> exists i :: 0 <= i < |s| && IsDigit(s[i])
  {
    var (negative, body) := SplitSign(s);
    var dot := DotIndex(body);
    var whole := body[..dot];
    var fraction := if dot < |body| then body[dot + 1..] else [];
    if AllDigits(whole) && AllDigits(fraction) && |whole| + |fraction| > 0 then
      assert forall i :: 0 <= i < |body| ==> IsNumeralChar(body[i]) by {
        forall i | 0 <= i < |body| ensures IsNumeralChar(body[i]) {
          if i < dot {
            assert body[i] == whole[i];
          } else if i > dot {
            assert body[i] == fraction[i - dot - 1];
          }
        }
      }
      assert body == s || body == s[1..];
      assert if |whole| > 0 then body[0] == whole[0] else body[dot + 1] == fraction[0];
      var magnitude := DigitsValue(whole) as real + DigitsValue(fraction) as real / Pow10(|fraction|) as real;
      Some(if negative then -magnitude else magnitude)
    else
      None
  }

  /** The decimal digits of `n`, most significant first, without leading
      zeros ("0" for zero). */
  function DecimalString(n: nat): (s: string)
    ensures |s| > 0 && AllDigits(s)
  {
    var last := ['0' + (n % 10) as char];
    if n < 10 then last else DecimalString(n / 10) + last
  }

  lemma {:induction false} DecimalStringValue(n: nat)
    ensures DigitsValue(DecimalString(n)) == n
  {
    var s := DecimalString(n);
    if n >= 10 {
      DecimalStringValue(n / 10);
      assert s[..|s| - 1] == DecimalString(n / 10);
    }
  }

  /** Every string `Int(String)` accepts is accepted by `Double(String)` with
      the same value, so trying `Int` after `Double` has failed never
      succeeds. */
  lemma IntParsesAsDouble(s: string)
    requires ParseInt(s).Some?
    ensures ParseDouble(s) == Some(ParseInt(s).value as real)
  {
    var (negative, body) := SplitSign(s);
    assert forall j :: 0 <= j < |body| ==> body[j] != '.';
    assert body[..|body|] == body;
  }

  /** Printing a value in decimal and reading it back with `Int(String)`
      gives the value again. */
  lemma ParseIntRoundTrip(n: int)
    requires 0 <= n <= IntMax
    ensures ParseInt(DecimalString(n)) == Some(n)
  {
    DecimalStringValue(n);
    var s := DecimalString(n);
    assert s[0] != '+' && s[0] != '-' by { assert IsDigit(s[0]); }
  }
}
