/** The colour parser of lib/colors.ts: validation and normalization of `#RGB`/`#RRGGBB`
    strings, the split into 8-bit channels, the sRGB decoding curve, relative luminance
    and the packaged parse result. */
module Colors {
  import opened Results
  import opened Text
  import opened Numeric
  import SrgbCurve

  /** An 8-bit channel, as `parseInt` of two hex digits produces it. */
  type Channel = c: int | 0 <= c <= 255

  /** A relative luminance. */
  type Unit = x: real | 0.0 <= x <= 1.0

  datatype Rgb = Rgb(r: Channel, g: Channel, b: Channel)

  datatype ParsedColor = ParsedColor(input: string, hex: string, rgb: Rgb, luminance: Unit)

  /** What `normalizeHex` throws; it carries the offending input. */
  datatype ColorError = InvalidColor(input: string)

  /** The text of the thrown error ends with the input it rejected. */
  function ErrorMessage(e: ColorError): (m: string)
    ensures |m| > |e.input| && m[|m| - |e.input|..] == e.input
  {
    "Color inválido: " + e.input
  }

  /** HEX_SHORT, `/^#([0-9a-fA-F]{3})$/`. */
  predicate IsShortHex(s: string) {
    |s| == 4 && s[0] == '#' && IsHexDigit(s[1]) && IsHexDigit(s[2]) && IsHexDigit(s[3])
  }

  /** HEX_LONG, `/^#([0-9a-fA-F]{6})$/`. */
  predicate IsLongHex(s: string) {
    |s| == 7 && s[0] == '#' && forall i :: 1 <= i < 7 ==> IsHexDigit(s[i])
  }

  /** The normal form: `#` and six upper-case hex digits. */
  predicate IsNormalHex(s: string) {
    IsLongHex(s) && forall i :: 1 <= i < 7 ==> !('a' <= s[i] <= 'f')
  }

  /** Each character of `m` written twice, in place: `abc` becomes `aabbcc`. */
  function Doubled(m: string): (r: string)
    ensures |r| == 2 * |m|
    ensures forall i :: 0 <= i < |r| ==> r[i] == m[i / 2]
  {
    if m == [] then [] else [m[0], m[0]] + Doubled(m[1..])
  }

  lemma UpperHexDigit(c: char)
    requires IsHexDigit(c)
    ensures IsHexDigit(UpperChar(c)) && !('a' <= UpperChar(c) <= 'f')
    ensures HexDigitValue(UpperChar(c)) == HexDigitValue(c)
  {
  }

  /** Upper-casing a `#` and six hex digits gives a normal form. */
  lemma UpperIsNormal(d: string)
    requires IsLongHex(d)
    ensures IsNormalHex(Upper(d))
  {
    forall i | 1 <= i < 7 ensures IsHexDigit(Upper(d)[i]) && !('a' <= Upper(d)[i] <= 'f') {
      UpperHexDigit(d[i]);
    }
  }

  /** Doubling and upper-casing three hex digits, after a `#`, gives a normal form. */
  lemma DoubledIsNormal(m: string)
    requires |m| == 3 && IsHexDigit(m[0]) && IsHexDigit(m[1]) && IsHexDigit(m[2])
    ensures IsNormalHex("#" + Upper(Doubled(m)))
  {
    var d := "#" + Doubled(m);
    assert IsLongHex(d) by {
      forall i | 1 <= i < 7 ensures IsHexDigit(d[i]) { assert d[i] == m[(i - 1) / 2]; }
    }
    UpperIsNormal(d);
    assert Upper(d) == "#" + Upper(Doubled(m));
  }

  function NormalizeHex(hex: string): (r: Result<string, ColorError>)
    ensures r.Success? <==> IsShortHex(hex) || IsLongHex(hex)
    ensures r.Failure? ==> r.error == InvalidColor(hex)
    ensures r.Success? ==> IsNormalHex(r.value)
  {
    if IsShortHex(hex) then
      DoubledIsNormal(hex[1..]);
      Success("#" + Upper(Doubled(hex[1..])))
    else if IsLongHex(hex) then
      UpperIsNormal(hex);
      Success(Upper(hex))
    else
      Failure(InvalidColor(hex))
  }

  /** The shorthand `#rgb` becomes `#RRGGBB`: every digit doubled and upper-cased. */
  lemma NormalizeHexShort(hex: string)
    requires IsShortHex(hex)
    ensures NormalizeHex(hex) == Success(['#', UpperChar(hex[1]), UpperChar(hex[1]),
                                          UpperChar(hex[2]), UpperChar(hex[2]),
                                          UpperChar(hex[3]), UpperChar(hex[3])])
  {
    var doubled := Doubled(hex[1..]);
    assert doubled == [hex[1], hex[1], hex[2], hex[2], hex[3], hex[3]];
    var upper := Upper(doubled);
    assert upper == [UpperChar(hex[1]), UpperChar(hex[1]), UpperChar(hex[2]),
                     UpperChar(hex[2]), UpperChar(hex[3]), UpperChar(hex[3])];
    assert "#" + upper == ['#', upper[0], upper[1], upper[2], upper[3], upper[4], upper[5]];
  }

  /** The long form `#rrggbb` is only upper-cased. */
  lemma NormalizeHexLong(hex: string)
    requires IsLongHex(hex)
    ensures NormalizeHex(hex) == Success(Upper(hex))
  {
  }

  /** Every hex digit of the normal form denotes the digit it came from. */
  lemma {:induction false} NormalizeHexKeepsDigits(hex: string)
    requires NormalizeHex(hex).Success?
    ensures forall i :: 1 <= i < 7 ==>
      HexDigitValue(NormalizeHex(hex).value[i]) == HexDigitValue(hex[if |hex| == 4 then (i + 1) / 2 else i])
  {
    var n := NormalizeHex(hex).value;
    forall i | 1 <= i < 7
      ensures HexDigitValue(n[i]) == HexDigitValue(hex[if |hex| == 4 then (i + 1) / 2 else i])
    {
      UpperHexDigit(hex[if |hex| == 4 then (i + 1) / 2 else i]);
    }
  }

  /** Normalizing a normal form changes nothing. */
  lemma {:induction false} NormalizeHexIdempotent(hex: string)
    requires NormalizeHex(hex).Success?
    ensures NormalizeHex(NormalizeHex(hex).value) == NormalizeHex(hex)
  {
    NormalIsFixed(NormalizeHex(hex).value);
  }

  lemma SameLowerSameUpper(c: char, d: char)
    requires LowerChar(c) == LowerChar(d)
    ensures UpperChar(c) == UpperChar(d)
    ensures IsHexDigit(c) <==> IsHexDigit(d)
    ensures c == '#' <==> d == '#'
  {
  }

  /** Normalization is case-insensitive: two inputs that differ only in letter case are
      accepted together and normalize to the same text. */
  lemma {:induction false} NormalizeHexCaseInsensitive(a: string, b: string)
    requires Lower(a) == Lower(b)
    ensures NormalizeHex(a).Success? <==> NormalizeHex(b).Success?
    ensures NormalizeHex(a).Success? ==> NormalizeHex(a).value == NormalizeHex(b).value
  {
    assert |a| == |b|;
    forall i | 0 <= i < |a|
      ensures UpperChar(a[i]) == UpperChar(b[i])
      ensures IsHexDigit(a[i]) <==> IsHexDigit(b[i])
      ensures a[i] == '#' <==> b[i] == '#'
    {
      assert Lower(a)[i] == Lower(b)[i];
      SameLowerSameUpper(a[i], b[i]);
    }
    if IsLongHex(a) {
      assert Upper(a) == Upper(b);
    }
  }

  lemma NormalizeHexExamples()
    ensures NormalizeHex("#abc") == Success("#AABBCC")
    ensures NormalizeHex("#0ea5e9") == Success("#0EA5E9")
    ensures NormalizeHex("notacolor") == Failure(InvalidColor("notacolor"))
    ensures NormalizeHex("#12") == Failure(InvalidColor("#12"))
    ensures NormalizeHex("#1234567") == Failure(InvalidColor("#1234567"))
    ensures NormalizeHex("abc").Failure? && NormalizeHex("#abg").Failure?
  {
    NormalizeHexShort("#abc");
    NormalizeHexLong("#0ea5e9");
    assert Upper("#0ea5e9") == "#0EA5E9";
    assert !IsHexDigit('g');
  }

  /** The byte two hex digits spell, most significant first. */
  function ParseByte(pair: string): (v: Channel)
    requires |pair| == 2 && IsHexDigit(pair[0]) && IsHexDigit(pair[1])
  {
    16 * HexDigitValue(pair[0]) + HexDigitValue(pair[1])
  }

  /** On two hex digits `parseInt(pair, 16)` is a number, and that number is the byte. */
  lemma ParseByteIsParseInt(pair: string)
    requires |pair| == 2 && IsHexDigit(pair[0]) && IsHexDigit(pair[1])
    ensures ParseIntHex(pair).Some? && ParseIntHex(pair).value == ParseByte(pair)
  {
    ParseIntHexTwoDigits(pair);
  }

  /** The triple spelled by the three digit pairs of a normal form. */
  function RgbOf(n: string): Rgb
    requires IsNormalHex(n)
  {
    PairsOfNormal(n);
    Rgb(ParseByte([n[1], n[2]]), ParseByte([n[3], n[4]]), ParseByte([n[5], n[6]]))
  }

  /** `hexToRgb`: normalizes (so shorthand is accepted and bad input throws), then reads
      the three two-digit groups. */
  function HexToRgb(hex: string): (r: Result<Rgb, ColorError>)
    ensures r.Success? <==> NormalizeHex(hex).Success?
    ensures r.Failure? ==> r.error == InvalidColor(hex)
    ensures r.Success? ==> r.value == RgbOf(NormalizeHex(hex).value)
  {
    var normalized :- NormalizeHex(hex);
    var n := normalized[1..];
    PairsOfNormal(normalized);
    Success(Rgb(ParseByte(n[0..2]), ParseByte(n[2..4]), ParseByte(n[4..6])))
  }

  /** The three two-character slices after the `#` of a normal form are its digit pairs. */
  lemma PairsOfNormal(normalized: string)
    requires IsNormalHex(normalized)
    ensures var n := normalized[1..];
      && n[0..2] == [normalized[1], normalized[2]]
      && n[2..4] == [normalized[3], normalized[4]]
      && n[4..6] == [normalized[5], normalized[6]]
      && forall i :: 1 <= i < 7 ==> IsHexDigit(normalized[i])
  {
  }

  /** The normal form of a triple: `#` and two upper-case hex digits per channel. */
  function FormatHex(rgb: Rgb): (s: string)
    ensures IsNormalHex(s)
  {
    ['#', HexDigitChar(rgb.r / 16), HexDigitChar(rgb.r % 16),
          HexDigitChar(rgb.g / 16), HexDigitChar(rgb.g % 16),
          HexDigitChar(rgb.b / 16), HexDigitChar(rgb.b % 16)]
  }

  lemma HexDigitCharOfValue(d: char)
    requires IsHexDigit(d) && !('a' <= d <= 'f')
    ensures HexDigitChar(HexDigitValue(d)) == d
  {
  }

  lemma ByteSplit(hi: nat, lo: nat)
    requires hi < 16 && lo < 16
    ensures (16 * hi + lo) / 16 == hi && (16 * hi + lo) % 16 == lo
  {
  }

  /** Two upper-case digits read as a byte and written back are the same two digits. */
  lemma ByteDigitsRoundTrip(c: Channel, hi: char, lo: char)
    requires IsHexDigit(hi) && !('a' <= hi <= 'f') && IsHexDigit(lo) && !('a' <= lo <= 'f')
    requires c == 16 * HexDigitValue(hi) + HexDigitValue(lo)
    ensures HexDigitChar(c / 16) == hi && HexDigitChar(c % 16) == lo
  {
    ByteSplit(HexDigitValue(hi), HexDigitValue(lo));
    HexDigitCharOfValue(hi);
    HexDigitCharOfValue(lo);
  }

  /** A normal form is the rendering of the triple its digit pairs spell. */
  lemma FormatOfNormal(n: string)
    requires IsNormalHex(n)
    ensures FormatHex(RgbOf(n)) == n
  {
    var rgb := RgbOf(n);
    ByteDigitsRoundTrip(rgb.r, n[1], n[2]);
    ByteDigitsRoundTrip(rgb.g, n[3], n[4]);
    ByteDigitsRoundTrip(rgb.b, n[5], n[6]);
    assert n == ['#', n[1], n[2], n[3], n[4], n[5], n[6]];
  }

  /** Reading the channels of an accepted string and writing them back gives its normal form. */
  lemma {:induction false} HexToRgbThenFormat(hex: string)
    requires NormalizeHex(hex).Success?
    ensures FormatHex(HexToRgb(hex).value) == NormalizeHex(hex).value
  {
    FormatOfNormal(NormalizeHex(hex).value);
  }

  lemma ChannelDigits(c: Channel)
    ensures 16 * HexDigitValue(HexDigitChar(c / 16)) + HexDigitValue(HexDigitChar(c % 16)) == c
  {
  }

  /** A normal form is its own normalization. */
  lemma NormalIsFixed(n: string)
    requires IsNormalHex(n)
    ensures NormalizeHex(n) == Success(n)
  {
    assert Upper(n) == n by {
      forall i | 0 <= i < 7 ensures Upper(n)[i] == n[i] {
        if i > 0 { assert IsHexDigit(n[i]) && !('a' <= n[i] <= 'f'); }
      }
    }
    NormalizeHexLong(n);
  }

  /** Writing a triple as hex and reading it back gives the same triple. */
  lemma {:induction false} FormatThenHexToRgb(rgb: Rgb)
    ensures HexToRgb(FormatHex(rgb)) == Success(rgb)
  {
    var s := FormatHex(rgb);
    NormalIsFixed(s);
    ChannelDigits(rgb.r);
    ChannelDigits(rgb.g);
    ChannelDigits(rgb.b);
    assert RgbOf(s) == rgb;
  }

  /** `srgbToLinear`: the sRGB decoding curve of IEC 61966-2-1 on an 8-bit channel. */
  function SrgbToLinear(c: Channel): (v: real)
    ensures 0.0 <= v <= 1.0
    ensures c == 0 ==> v == 0.0
    ensures c == 255 ==> v == 1.0
  {
    var cs := c as real / 255.0;
    if cs <= 0.04045 then cs / 12.92 else SrgbCurve.PowerBranch(c)
  }

  /** The threshold 0.04045 falls between 10/255 and 11/255: channels 0..10 take the linear
      branch, and 11..255 the power branch. */
  lemma LinearBranchExactlyUpTo10(c: Channel)
    ensures (c as real / 255.0 <= 0.04045) <==> c <= 10
    ensures c <= 10 ==> SrgbToLinear(c) == c as real / 255.0 / 12.92
    ensures 11 <= c ==> SrgbToLinear(c) == SrgbCurve.PowerBranch(c)
  {
  }

  /** The decoded value rises from each channel to the next, across the branch split too:
      10/255/12.92 lies below the power-table entry for 11. */
  lemma SrgbToLinearStep(c: Channel)
    requires c < 255
    ensures SrgbToLinear(c) < SrgbToLinear(c + 1)
  {
    LinearBranchExactlyUpTo10(c);
    LinearBranchExactlyUpTo10(c + 1);
    if c >= 11 {
      SrgbCurve.PowerBranchRises(c);
    }
  }

  lemma {:induction false} SrgbToLinearIncreasing(a: Channel, b: Channel)
    requires a < b
    ensures SrgbToLinear(a) < SrgbToLinear(b)
    decreases b - a
  {
    SrgbToLinearStep(a);
    if a + 1 < b {
      SrgbToLinearIncreasing(a + 1, b);
    }
  }

  /** The decoding curve is strictly increasing: one channel decodes below another exactly
      when it is smaller. */
  lemma SrgbToLinearMonotone(a: Channel, b: Channel)
    ensures a < b <==> SrgbToLinear(a) < SrgbToLinear(b)
  {
    if a < b {
      SrgbToLinearIncreasing(a, b);
    } else if b < a {
      SrgbToLinearIncreasing(b, a);
    }
  }

  /** `relativeLuminance`: the BT.709 weighted sum of the decoded channels. The weights sum
      to 1, so the result lies in [0, 1] and a grey has the luminance of its channel. */
  function RelativeLuminance(rgb: Rgb): (l: real)
    ensures 0.0 <= l <= 1.0
    ensures rgb.r == rgb.g == rgb.b ==> l == SrgbToLinear(rgb.r)
    ensures rgb == Rgb(0, 0, 0) ==> l == 0.0
    ensures rgb == Rgb(255, 255, 255) ==> l == 1.0
  {
    0.2126 * SrgbToLinear(rgb.r) + 0.7152 * SrgbToLinear(rgb.g) + 0.0722 * SrgbToLinear(rgb.b)
  }

  /** Rounding to six decimals keeps a luminance within [0, 1]. */
  lemma RoundedLuminanceInUnit(l: real)
    requires 0.0 <= l <= 1.0
    ensures 0.0 <= ToFixed(l, 6) <= 1.0
  {
    ToFixedMonotone(0.0, l, 6);
    ToFixedMonotone(l, 1.0, 6);
    ToFixedKeepsWhole(0, 6);
    ToFixedKeepsWhole(1, 6);
  }

  /** The luminance as `parseColor` stores it: rounded to six decimals, still within
      [0, 1] and off by at most half a millionth. */
  function StoredLuminance(rgb: Rgb): (l: Unit)
    ensures -0.0000005 <= l - RelativeLuminance(rgb) <= 0.0000005
  {
    RoundedLuminance(RelativeLuminance(rgb))
  }

  /** `Number(lum.toFixed(6))` for a luminance `lum` in [0, 1]. */
  function RoundedLuminance(lum: real): (l: Unit)
    requires 0.0 <= lum <= 1.0
    ensures -0.0000005 <= l - lum <= 0.0000005
  {
    RoundedLuminanceInUnit(lum);
    ToFixedError(lum, 6);
    ToFixed(lum, 6)
  }

  /** Reading the channels of the normal form gives the channels of the input. */
  lemma HexToRgbOfNormal(input: string)
    requires NormalizeHex(input).Success?
    ensures HexToRgb(NormalizeHex(input).value) == HexToRgb(input)
  {
    NormalizeHexIdempotent(input);
  }

  /** `parseColor`: the input kept verbatim, its normal form, its channels and its relative
      luminance rounded to six decimals. */
  function ParseColor(input: string): (r: Result<ParsedColor, ColorError>)
    ensures r.Success? <==> NormalizeHex(input).Success?
    ensures r.Failure? ==> r.error == InvalidColor(input)
    ensures r.Success? ==>
      && r.value.input == input
      && r.value.hex == NormalizeHex(input).value
      && HexToRgb(input) == Success(r.value.rgb)
      && r.value.luminance == StoredLuminance(r.value.rgb)
  {
    var hex :- NormalizeHex(input);
    HexToRgbOfNormal(input);
    var rgb := HexToRgb(hex).value;
    Success(ParsedColor(input, hex, rgb, StoredLuminance(rgb)))
  }

  /** Black has luminance 0. */
  lemma BlackIsZero()
    ensures ParseColor("#000000") == Success(ParsedColor("#000000", "#000000", Rgb(0, 0, 0), 0.0))
  {
    ToFixedKeepsWhole(0, 6);
    NormalIsFixed("#000000");
    assert RgbOf("#000000") == Rgb(0, 0, 0);
  }

  /** White has luminance 1, in the long and in the short form and in either case. */
  lemma WhiteIsOne()
    ensures ParseColor("#FFFFFF") == Success(ParsedColor("#FFFFFF", "#FFFFFF", Rgb(255, 255, 255), 1.0))
    ensures ParseColor("#fff") == Success(ParsedColor("#fff", "#FFFFFF", Rgb(255, 255, 255), 1.0))
  {
    ToFixedKeepsWhole(1, 6);
    NormalIsFixed("#FFFFFF");
    NormalizeHexShort("#fff");
    assert RgbOf("#FFFFFF") == Rgb(255, 255, 255);
  }
}
