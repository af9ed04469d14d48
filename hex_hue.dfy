/** The base-colour hue of the visualisation: a CSS colour string `#RRGGBB`
    (either letter case) is parsed channel by channel and converted to the hue
    of its HSL form with the six-case max/min formula of sRGB-to-HSL
    conversion. A colour that
    does not start with `#` gets the default hue 45. */
module HexHue {
  import opened MathModel

  /** `toLowerCase` on one character: upper-case ASCII letters become lower case. */
  function LowerChar(c: char): char
  {
    if 'A' <= c <= 'Z' then (c as int + 32) as char else c
  }

  /** `toLowerCase` on ASCII, character by character. */
  function ToLower(s: string): (r: string)
    ensures |r| == |s|
  {
    seq(|s|, i requires 0 <= i < |s| => LowerChar(s[i]))
  }

  /** Lower-casing leaves no upper-case letter, and changes a character
      exactly when it is an upper-case letter. */
  lemma LowerCaseSpec(s: string)
    ensures forall i :: 0 <= i < |s| ==> !('A' <= ToLower(s)[i] <= 'Z')
    ensures forall i :: 0 <= i < |s| ==> (ToLower(s)[i] == s[i] <==> !('A' <= s[i] <= 'Z'))
  {
  }

  /** `startsWith('#')`. */
  predicate StartsWithHash(s: string)
  {
    |s| > 0 && s[0] == '#'
  }

  predicate IsHexDigit(c: char)
  {
    '0' <= c <= '9' || 'a' <= c <= 'f'
  }

  function HexDigitValue(c: char): (v: nat)
    requires IsHexDigit(c)
    ensures v < 16
  {
    if '0' <= c <= '9' then c as int - '0' as int else c as int - 'a' as int + 10
  }

  /** `parseInt(pair, 16)` on two lower-case hex digits. */
  function ParseHexPair(hi: char, lo: char): (v: nat)
    requires IsHexDigit(hi) && IsHexDigit(lo)
    ensures v <= 255
  {
    16 * HexDigitValue(hi) + HexDigitValue(lo)
  }

  /** What the converter needs of a colour that starts with `#`: the six
      characters after it are hex digits once lower-cased. Anything after
      them is ignored by the slices. */
  predicate WellFormedHex(color: string)
  {
    |color| >= 7 && forall i :: 1 <= i < 7 ==> IsHexDigit(LowerChar(color[i]))
  }

  /** A colour's three 8-bit channels. */
  datatype Rgb = Rgb(r: nat, g: nat, b: nat)
  {
    predicate Valid()
    {
      r <= 255 && g <= 255 && b <= 255
    }
  }

  /** The three `parseInt(hex.slice(k, k + 2), 16)` calls on a lower-cased colour. */
  function Channels(hex: string): (c: Rgb)
    requires |hex| >= 7 && forall i :: 1 <= i < 7 ==> IsHexDigit(hex[i])
    ensures c.Valid()
  {
    Rgb(ParseHexPair(hex[1], hex[2]), ParseHexPair(hex[3], hex[4]), ParseHexPair(hex[5], hex[6]))
  }

  /** `Math.max(r, g, b)` and `Math.min(r, g, b)`. */
  function Max3(a: real, b: real, c: real): real
  {
    Max(Max(a, b), c)
  }

  function Min3(a: real, b: real, c: real): real
  {
    Min(Min(a, b), c)
  }

  /** n / d lies in [-1, 1] and has the sign of n when |n| <= d. */
  lemma QuotientInUnit(n: real, d: real)
    requires d > 0.0 && -d <= n <= d
    ensures -1.0 <= n / d <= 1.0
    ensures n < 0.0 ==> n / d < 0.0
    ensures n >= 0.0 ==> n / d >= 0.0
  {
    var q := n / d;
    assert q * d == n;
    assert (1.0 - q) * d == d - n;
    assert (1.0 + q) * d == d + n;
  }

  /** The hue in degrees of normalised channels r, g, b: 0 for a grey, otherwise
      the six-case formula, with red as maximum checked first and a
      +360 correction when green is below blue. */
  function Hue(r: real, g: real, b: real): (h: real)
    ensures 0.0 <= h < 360.0
    ensures r == g == b ==> h == 0.0
  {
    var max := Max3(r, g, b);
    var min := Min3(r, g, b);
    if max == min then 0.0
    else if max == r then
      QuotientInUnit(g - b, max - min);
      60.0 * ((g - b) / (max - min)) + (if g < b then 360.0 else 0.0)
    else if max == g then
      QuotientInUnit(b - r, max - min);
      60.0 * ((b - r) / (max - min)) + 120.0
    else
      QuotientInUnit(r - g, max - min);
      60.0 * ((r - g) / (max - min)) + 240.0
  }

  /** The hue of 8-bit channels, each divided by 255 first. */
  function RgbHue(c: Rgb): real
  {
    Hue(c.r as real / 255.0, c.g as real / 255.0, c.b as real / 255.0)
  }

  lemma LowerCaseKeepsHash(color: string)
    ensures StartsWithHash(ToLower(color)) == StartsWithHash(color)
    ensures StartsWithHash(color) && WellFormedHex(color) ==>
      |ToLower(color)| >= 7 && forall i :: 1 <= i < 7 ==> IsHexDigit(ToLower(color)[i])
  {
  }

  /** The `baseColorHue` memo of RotatingFormations: lower-case the colour,
      and parse and convert it when it starts with `#`; otherwise 45. What
      the parsed hue means is proved beside it: `FormatThenParse` (parsing
      inverts formatting) and `HueIgnoresCase` (letter case does not matter). */
  function BaseColorHue(color: string): (h: real)
    requires StartsWithHash(color) ==> WellFormedHex(color)
    ensures 0.0 <= h < 360.0
    ensures !StartsWithHash(color) ==> h == 45.0
    ensures StartsWithHash(color) ==> h == RgbHue(Channels(ToLower(color)))
  {
    LowerCaseKeepsHash(color);
    var hex := ToLower(color);
    if StartsWithHash(hex) then RgbHue(Channels(hex)) else 45.0
  }

  /** A grey colour (three equal channels) has hue 0. */
  lemma GreyHasHueZero(color: string)
    requires StartsWithHash(color) && WellFormedHex(color)
    requires var c := Channels(ToLower(color)); c.r == c.g == c.b
    ensures BaseColorHue(color) == 0.0
  {
  }

  /** Lower-casing is idempotent, so a colour and its lower-case form have the same hue. */
  lemma {:induction false} HueIgnoresCase(color: string)
    requires StartsWithHash(color) ==> WellFormedHex(color)
    ensures StartsWithHash(ToLower(color)) ==> WellFormedHex(ToLower(color))
    ensures BaseColorHue(ToLower(color)) == BaseColorHue(color)
  {
    var lower := ToLower(color);
    assert ToLower(lower) == lower by {
      forall i | 0 <= i < |lower|
        ensures ToLower(lower)[i] == lower[i]
      {
        assert LowerChar(LowerChar(color[i])) == LowerChar(color[i]);
      }
    }
    LowerCaseKeepsHash(color);
    LowerCaseKeepsHash(lower);
  }

  /** The lower-case hex digit of a value below 16. */
  function HexDigit(v: nat): (c: char)
    requires v < 16
    ensures IsHexDigit(c) && LowerChar(c) == c
    ensures HexDigitValue(c) == v
  {
    if v < 10 then ('0' as int + v) as char else ('a' as int + v - 10) as char
  }

  /** `#rrggbb` with lower-case digits: the inverse of `Channels`. */
  function FormatHex(c: Rgb): string
    requires c.Valid()
  {
    ['#', HexDigit(c.r / 16), HexDigit(c.r % 16),
          HexDigit(c.g / 16), HexDigit(c.g % 16),
          HexDigit(c.b / 16), HexDigit(c.b % 16)]
  }

  /** Formatting channels and converting the string gives back the channels'
      hue: the parser inverts the formatter. */
  lemma {:induction false} FormatThenParse(c: Rgb)
    requires c.Valid()
    ensures StartsWithHash(FormatHex(c)) && WellFormedHex(FormatHex(c))
    ensures ToLower(FormatHex(c)) == FormatHex(c)
    ensures Channels(FormatHex(c)) == c
    ensures BaseColorHue(FormatHex(c)) == RgbHue(c)
  {
    var s := FormatHex(c);
    assert ToLower(s) == s by {
      forall i | 0 <= i < |s| ensures ToLower(s)[i] == s[i] {
      }
    }
  }

  /** A colour written `s` from channels `c` has the channels' hue `h`. */
  lemma FormattedHue(c: Rgb, s: string, h: real)
    requires c.Valid() && FormatHex(c) == s && RgbHue(c) == h
    ensures BaseColorHue(s) == h
  {
    FormatThenParse(c);
  }

  /** The channel triples of pure red, green and blue have hues 0, 120 and 240. */
  lemma PrimaryHues()
    ensures RgbHue(Rgb(255, 0, 0)) == 0.0
    ensures RgbHue(Rgb(0, 255, 0)) == 120.0
    ensures RgbHue(Rgb(0, 0, 255)) == 240.0
  {
    assert RgbHue(Rgb(255, 0, 0)) == 60.0 * ((0.0 - 0.0) / (1.0 - 0.0));
    assert RgbHue(Rgb(0, 255, 0)) == 60.0 * ((0.0 - 0.0) / (1.0 - 0.0)) + 120.0;
    assert RgbHue(Rgb(0, 0, 255)) == 60.0 * ((0.0 - 0.0) / (1.0 - 0.0)) + 240.0;
  }

  /** Pure red has hue 0. */
  lemma RedHue()
    ensures BaseColorHue("#ff0000") == 0.0
  {
    PrimaryHues();
    FormattedHue(Rgb(255, 0, 0), "#ff0000", 0.0);
  }

  /** Pure green has hue 120. */
  lemma GreenHue()
    ensures BaseColorHue("#00ff00") == 120.0
  {
    PrimaryHues();
    FormattedHue(Rgb(0, 255, 0), "#00ff00", 120.0);
  }

  /** Pure blue written in upper case has hue 240. */
  lemma BlueHue()
    ensures BaseColorHue("#0000FF") == 240.0
  {
    PrimaryHues();
    FormattedHue(Rgb(0, 0, 255), "#0000ff", 240.0);
    UpperBlueLowerCase();
    HueIgnoresCase("#0000FF");
  }

  /** `#0000FF` is well formed and lower-cases to `#0000ff`. */
  lemma UpperBlueLowerCase()
    ensures WellFormedHex("#0000FF") && ToLower("#0000FF") == "#0000ff"
  {
  }

  /** The default gold `#d4af37` has hue 7200/157, about 45.86 degrees. */
  lemma GoldHue()
    ensures BaseColorHue("#d4af37") == 7200.0 / 157.0
  {
    assert RgbHue(Rgb(212, 175, 55)) == 7200.0 / 157.0 by {
      assert RgbHue(Rgb(212, 175, 55)) == 60.0 * ((175.0 / 255.0 - 55.0 / 255.0) / (212.0 / 255.0 - 55.0 / 255.0));
    }
    FormattedHue(Rgb(212, 175, 55), "#d4af37", 7200.0 / 157.0);
  }
}
