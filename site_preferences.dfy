/** The colour and theme helpers of `src/utils/sitePreferences.ts`: hex colour normalisation,
    conversion to and from RGB channels, colour mixing, the derived accent palette and the
    resolution of the "system" theme. */
module SitePreferences {
  import opened Common
  import Store

  /** `Math.min(max, Math.max(min, value))`. */
  function Clamp(value: int, min: int, max: int): (r: int)
    ensures min <= max ==> min <= r <= max
    ensures min <= value <= max ==> r == value
    ensures value < min <= max ==> r == min
    ensures min <= max < value ==> r == max
  {
    Min(max, Max(min, value))
  }

  predicate IsHexDigit(c: char) {
    ('0' <= c <= '9') || ('a' <= c <= 'f') || ('A' <= c <= 'F')
  }

  predicate IsLowerHexDigit(c: char) {
    ('0' <= c <= '9') || ('a' <= c <= 'f')
  }

  function HexValue(c: char): (v: nat)
    requires IsHexDigit(c)
    ensures v < 16
  {
    if '0' <= c <= '9' then c as int - '0' as int
    else if 'a' <= c <= 'f' then c as int - 'a' as int + 10
    else c as int - 'A' as int + 10
  }

  /** The lower-case digit `toString(16)` writes. */
  function HexChar(d: nat): (c: char)
    requires d < 16
    ensures IsLowerHexDigit(c) && IsHexDigit(c) && HexValue(c) == d
  {
    if d < 10 then ('0' as int + d) as char else ('a' as int + d - 10) as char
  }

  lemma HexCharOfValue(c: char)
    requires IsHexDigit(c)
    ensures HexChar(HexValue(c)) == LowerChar(c)
  {
  }

  /** `#` followed by `n` hex digits of either case. */
  predicate IsHexColorOf(s: string, n: nat) {
    |s| == n + 1 && s[0] == '#' && forall i :: 1 <= i < |s| ==> IsHexDigit(s[i])
  }

  /** A colour as the palette stores it: `#` and six lower-case hex digits. */
  predicate IsLowerHexColor(s: string) {
    IsHexColorOf(s, 6) && forall i :: 1 <= i < |s| ==> IsLowerHexDigit(s[i])
  }

  /** `normalizeHex`: after trimming, `#abc` doubles each digit (keeping its case), `#aabbcc`
      is lower-cased, anything else is rejected. */
  function NormalizeHex(hex: string): (r: Option<string>)
    ensures r.Some? <==> IsHexColorOf(Trim(hex), 3) || IsHexColorOf(Trim(hex), 6)
    ensures r.Some? ==> IsHexColorOf(r.value, 6)
    ensures IsHexColorOf(Trim(hex), 6) ==> r == Some(ToLower(Trim(hex)))
    ensures IsHexColorOf(Trim(hex), 3) ==>
              && r.Some?
              && (forall k :: 0 <= k < 3 ==> r.value[2 * k + 1] == r.value[2 * k + 2] == Trim(hex)[k + 1])
  {
    var t := Trim(hex);
    if IsHexColorOf(t, 3) then Some(['#', t[1], t[1], t[2], t[2], t[3], t[3]])
    else if IsHexColorOf(t, 6) then
      var lower := ToLower(t);
      assert forall i :: 1 <= i < 7 ==> lower[i] == LowerChar(t[i]);
      Some(lower)
    else None
  }

  /** A lower-case colour is its own normal form. */
  lemma NormalizeLowerColor(s: string)
    requires IsLowerHexColor(s)
    ensures NormalizeHex(s) == Some(s)
  {
    assert !IsSpace(s[0]) && !IsSpace(s[6]);
    assert TrimStart(s) == s;
    assert TrimEnd(s) == s;
    assert ToLower(s) == s;
  }

  /** Every six-digit colour is accepted by `normalizeHex`. */
  lemma ColorIsNormalizable(s: string)
    requires IsHexColorOf(s, 6)
    ensures NormalizeHex(s).Some?
  {
    assert !IsSpace(s[0]) && !IsSpace(s[6]);
    assert TrimStart(s) == s;
    assert TrimEnd(s) == s;
  }

  /** Normalising a normal form only lower-cases it; for six-digit input normalising is
      idempotent, while a three-digit input's preserved upper case is lowered the second time. */
  lemma NormalizeHexTwice(hex: string)
    requires NormalizeHex(hex).Some?
    ensures NormalizeHex(NormalizeHex(hex).value) == Some(ToLower(NormalizeHex(hex).value))
    ensures IsHexColorOf(Trim(hex), 6) ==> NormalizeHex(NormalizeHex(hex).value) == NormalizeHex(hex)
  {
    var n := NormalizeHex(hex).value;
    assert !IsSpace(n[0]) && !IsSpace(n[6]);
    assert TrimStart(n) == n;
    assert TrimEnd(n) == n;
    if IsHexColorOf(Trim(hex), 6) {
      var t := Trim(hex);
      assert forall i :: 0 <= i < 7 ==> ToLower(n)[i] == LowerChar(LowerChar(t[i])) == LowerChar(t[i]);
      assert ToLower(n) == n;
    }
  }

  datatype Rgb = Rgb(r: int, g: int, b: int)

  predicate IsChannel(v: int) { 0 <= v <= 255 }

  function HexPairValue(hi: char, lo: char): (v: nat)
    requires IsHexDigit(hi) && IsHexDigit(lo)
    ensures v <= 255
  {
    16 * HexValue(hi) + HexValue(lo)
  }

  /** `hexToRgb`: the three two-digit channels of the normalised colour, or nothing when the
      text is not a colour. */
  function HexToRgb(hex: string): (r: Option<Rgb>)
    ensures r.Some? <==> NormalizeHex(hex).Some?
    ensures r.Some? ==> IsChannel(r.value.r) && IsChannel(r.value.g) && IsChannel(r.value.b)
  {
    match NormalizeHex(hex)
    case None => None
    case Some(n) =>
      var value := n[1..];
      Some(Rgb(HexPairValue(value[0], value[1]), HexPairValue(value[2], value[3]), HexPairValue(value[4], value[5])))
  }

  /** `n.toString(16)`: lower-case hex digits, no leading zero. */
  function HexNumeral(n: nat): (r: string)
    ensures |r| >= 1 && (n < 16 <==> |r| == 1)
    ensures forall i :: 0 <= i < |r| ==> IsLowerHexDigit(r[i])
  {
    if n < 16 then [HexChar(n)] else HexNumeral(n / 16) + [HexChar(n % 16)]
  }

  lemma HexNumeralTwoDigits(v: nat)
    requires 16 <= v < 256
    ensures HexNumeral(v) == [HexChar(v / 16), HexChar(v % 16)]
  {
    assert v / 16 < 16;
    assert HexNumeral(v / 16) == [HexChar(v / 16)];
  }

  /** One channel as two hex digits, after clamping to 0..255. */
  function ChannelHex(channel: int): (r: string)
    ensures |r| == 2 && IsLowerHexDigit(r[0]) && IsLowerHexDigit(r[1])
    ensures HexPairValue(r[0], r[1]) == Clamp(channel, 0, 255)
  {
    var v := Clamp(channel, 0, 255);
    var digits := HexNumeral(v);
    assert v >= 16 ==> digits == [HexChar(v / 16), HexChar(v % 16)] by {
      if v >= 16 {
        HexNumeralTwoDigits(v);
      }
    }
    PadZeros(digits, 2)
  }

  /** `rgbToHex`. */
  function RgbToHex(r: int, g: int, b: int): (s: string)
    ensures IsLowerHexColor(s)
  {
    "#" + ChannelHex(r) + ChannelHex(g) + ChannelHex(b)
  }

  /** Reading back a written colour gives the clamped channels. */
  lemma RgbToHexRoundTrip(r: int, g: int, b: int)
    ensures HexToRgb(RgbToHex(r, g, b)) == Some(Rgb(Clamp(r, 0, 255), Clamp(g, 0, 255), Clamp(b, 0, 255)))
  {
    var s := RgbToHex(r, g, b);
    NormalizeLowerColor(s);
    assert s[1..] == ChannelHex(r) + ChannelHex(g) + ChannelHex(b);
  }

  /** Two hex digits written back after reading: the same digits in lower case. */
  lemma ChannelHexOfPair(hi: char, lo: char)
    requires IsHexDigit(hi) && IsHexDigit(lo)
    ensures ChannelHex(HexPairValue(hi, lo)) == [LowerChar(hi), LowerChar(lo)]
  {
    var h := ChannelHex(HexPairValue(hi, lo));
    assert 16 * HexValue(h[0]) + HexValue(h[1]) == 16 * HexValue(hi) + HexValue(lo);
    assert HexValue(h[0]) == HexValue(hi) && HexValue(h[1]) == HexValue(lo);
    HexCharOfValue(hi);
    HexCharOfValue(lo);
    HexCharOfValue(h[0]);
    HexCharOfValue(h[1]);
  }

  /** Writing back a read colour gives its normalised text in lower case. */
  lemma HexToRgbRoundTrip(hex: string)
    requires NormalizeHex(hex).Some?
    ensures var c := HexToRgb(hex).value;
            RgbToHex(c.r, c.g, c.b) == ToLower(NormalizeHex(hex).value)
  {
    var n := NormalizeHex(hex).value;
    var value := n[1..];
    assert value[0] == n[1] && value[1] == n[2] && value[2] == n[3];
    assert value[3] == n[4] && value[4] == n[5] && value[5] == n[6];
    WrittenColor(n);
  }

  /** Writing back the three channels read from a six-digit colour gives it in lower case. */
  lemma WrittenColor(n: string)
    requires IsHexColorOf(n, 6)
    ensures RgbToHex(HexPairValue(n[1], n[2]), HexPairValue(n[3], n[4]), HexPairValue(n[5], n[6])) == ToLower(n)
  {
    calc {
      RgbToHex(HexPairValue(n[1], n[2]), HexPairValue(n[3], n[4]), HexPairValue(n[5], n[6]));
      "#" + ChannelHex(HexPairValue(n[1], n[2])) + ChannelHex(HexPairValue(n[3], n[4])) + ChannelHex(HexPairValue(n[5], n[6]));
      { ChannelHexOfPair(n[1], n[2]); ChannelHexOfPair(n[3], n[4]); ChannelHexOfPair(n[5], n[6]); }
      "#" + [LowerChar(n[1]), LowerChar(n[2])] + [LowerChar(n[3]), LowerChar(n[4])] + [LowerChar(n[5]), LowerChar(n[6])];
      { assert LowerChar(n[0]) == '#'; }
      ToLower(n);
    }
  }

  /** `Math.round(from + (to - from) * amount)` for `amount == num / den`: JavaScript rounds
      halves up, so the result is the floor of the exact value plus one half. */
  function MixChannel(from: int, to: int, num: nat, den: nat): int
    requires den > 0
  {
    (2 * (from * den + (to - from) * num) + den) / (2 * den)
  }

  lemma MixChannelBetween(from: int, to: int, num: nat, den: nat)
    requires 0 < den && num <= den
    ensures Min(from, to) <= MixChannel(from, to, num, den) <= Max(from, to)
  {
    var a := from * den + (to - from) * num;
    WeightedBetween(from, to, num, den);
    RoundBetween(a, den, Min(from, to), Max(from, to));
  }

  /** Mixing by none of the way keeps the channel; mixing all the way reaches the target. */
  lemma MixChannelEnds(from: int, to: int, den: nat)
    requires 0 < den
    ensures MixChannel(from, to, 0, den) == from
    ensures MixChannel(from, to, den, den) == to
  {
    RoundBetween(from * den + (to - from) * 0, den, from, from);
    assert from * den + (to - from) * den == to * den;
    RoundBetween(from * den + (to - from) * den, den, to, to);
  }

  /** Rounding `a / den` half up stays within integer bounds of the exact quotient. */
  lemma RoundBetween(a: int, den: int, lo: int, hi: int)
    requires den > 0 && lo * den <= a <= hi * den
    ensures lo <= (2 * a + den) / (2 * den) <= hi
  {
    var d2 := 2 * den;
    assert lo * d2 <= 2 * a + den by {
      MulDouble(lo, den);
    }
    assert 2 * a + den < (hi + 1) * d2 by {
      MulDouble(hi + 1, den);
      MulSuccLeft(hi, den);
    }
    DivBetween(2 * a + den, d2, lo, hi);
  }

  lemma MulDouble(x: int, d: int)
    ensures x * (2 * d) == 2 * (x * d)
  {
  }

  lemma MulSuccLeft(x: int, d: int)
    ensures (x + 1) * d == x * d + d
  {
  }

  /** `from * den + (to - from) * num` lies between `from * den` and `to * den`. */
  lemma WeightedBetween(from: int, to: int, num: nat, den: nat)
    requires 0 < den && num <= den
    ensures Min(from, to) * den <= from * den + (to - from) * num <= Max(from, to) * den
  {
    var gap := if from <= to then to - from else from - to;
    assert gap * num <= gap * den by {
      assert gap * (den - num) >= 0;
    }
    assert gap * num >= 0;
    if from <= to {
      assert from * den + gap * den == to * den;
    } else {
      assert to * den + gap * den == from * den;
    }
  }

  lemma DivBetween(x: int, d: int, lo: int, hi: int)
    requires d > 0 && lo * d <= x < (hi + 1) * d
    ensures lo <= x / d <= hi
  {
    var q := x / d;
    var r := x % d;
    assert x == q * d + r && 0 <= r < d;
    assert (q + 1 - lo) * d == q * d + d - lo * d;
    PositiveFactor(q + 1 - lo, d);
    assert (hi + 1 - q) * d == (hi + 1) * d - q * d;
    PositiveFactor(hi + 1 - q, d);
  }

  lemma PositiveFactor(a: int, d: int)
    requires d > 0 && a * d > 0
    ensures a > 0
  {
  }

  /** `mixColor`: text that is not a colour comes back unchanged; otherwise each channel
      moves the fraction `num / den` of the way toward the target and is rounded. */
  function MixColor(hex: string, target: Rgb, num: nat, den: nat): (r: string)
    requires den > 0
    ensures NormalizeHex(hex).None? ==> r == hex
    ensures NormalizeHex(hex).Some? ==> IsLowerHexColor(r)
  {
    match HexToRgb(hex)
    case None => hex
    case Some(c) =>
      RgbToHex(MixChannel(c.r, target.r, num, den), MixChannel(c.g, target.g, num, den), MixChannel(c.b, target.b, num, den))
  }

  /** Mixing by a fraction between 0 and 1 keeps each channel between the colour's own and the
      target's; mixing by 0 gives the colour's lower-case normal form. */
  lemma MixColorBetween(hex: string, target: Rgb, num: nat, den: nat)
    requires 0 < den && num <= den
    requires NormalizeHex(hex).Some?
    requires IsChannel(target.r) && IsChannel(target.g) && IsChannel(target.b)
    ensures var c := HexToRgb(hex).value;
            var m := HexToRgb(MixColor(hex, target, num, den)).value;
            && Min(c.r, target.r) <= m.r <= Max(c.r, target.r)
            && Min(c.g, target.g) <= m.g <= Max(c.g, target.g)
            && Min(c.b, target.b) <= m.b <= Max(c.b, target.b)
    ensures num == 0 ==> MixColor(hex, target, num, den) == ToLower(NormalizeHex(hex).value)
  {
    var c := HexToRgb(hex).value;
    var r := MixChannel(c.r, target.r, num, den);
    var g := MixChannel(c.g, target.g, num, den);
    var b := MixChannel(c.b, target.b, num, den);
    MixChannelBetween(c.r, target.r, num, den);
    MixChannelBetween(c.g, target.g, num, den);
    MixChannelBetween(c.b, target.b, num, den);
    if num == 0 {
      MixChannelEnds(c.r, target.r, den);
      MixChannelEnds(c.g, target.g, den);
      MixChannelEnds(c.b, target.b, den);
    }
    RgbToHexRoundTrip(r, g, b);
    if num == 0 {
      HexToRgbRoundTrip(hex);
    }
  }

  const Black := Rgb(0, 0, 0)
  const White := Rgb(255, 255, 255)
  const DefaultAccent := "#667eea"

  /** The four accent variables `applySiteSettings` sets. */
  datatype Palette = Palette(primary: string, secondary: string, primaryDark: string, primaryLight: string)

  /** The accent colour normalised (or the default when it is not a colour), 18% toward black,
      12% toward black and 78% toward white. */
  function AccentPalette(accentColor: string): (p: Palette)
    ensures IsHexColorOf(p.primary, 6)
    ensures NormalizeHex(accentColor).Some? ==> p.primary == NormalizeHex(accentColor).value
    ensures NormalizeHex(accentColor).None? ==> p.primary == DefaultAccent
    ensures IsLowerHexColor(p.secondary) && IsLowerHexColor(p.primaryDark) && IsLowerHexColor(p.primaryLight)
  {
    var primary := match NormalizeHex(accentColor) case Some(n) => n case None => DefaultAccent;
    assert NormalizeHex(primary).Some? by {
      if NormalizeHex(accentColor).None? {
        assert IsLowerHexColor(DefaultAccent);
      }
      ColorIsNormalizable(primary);
    }
    Palette(primary, MixColor(primary, Black, 18, 100), MixColor(primary, Black, 12, 100), MixColor(primary, White, 78, 100))
  }

  /** `resolveThemeMode`; `prefersDark` is the `prefers-color-scheme: dark` media query. */
  function ResolveThemeMode(settings: Store.SiteSettings, prefersDark: bool): (r: Store.ThemeMode)
    ensures r != Store.System
    ensures settings.themeMode != Store.System ==> r == settings.themeMode
    ensures settings.themeMode == Store.System ==> (r == Store.Dark <==> prefersDark)
  {
    if settings.themeMode == Store.System then (if prefersDark then Store.Dark else Store.Light)
    else settings.themeMode
  }
}
