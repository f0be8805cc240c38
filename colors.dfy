/** Colour arithmetic for the WCAG 2.1 contrast checks: hex <-> RGB conversion,
    relative luminance, contrast ratio, the AA/AAA thresholds of success
    criteria 1.4.3 and 1.4.6, and the 19-step search for a darker or lighter
    colour that reaches a target ratio. */
module Colors {
  import opened Results
  import opened Text

  /** One 8-bit colour channel. */
  type Channel = n: nat | n < 256

  datatype Rgb = Rgb(r: Channel, g: Channel, b: Channel)

  const Black := Rgb(0, 0, 0)
  const White := Rgb(255, 255, 255)
  /** The fallbacks of the two searches, spelled as the source spells them. */
  const BlackHex := "#000000"
  const WhiteHex := "#FFFFFF"

  // ---------------------------------------------------------------------------
  // Hex <-> RGB
  // ---------------------------------------------------------------------------

  predicate IsHexDigit(c: char) {
    '0' <= c <= '9' || 'a' <= c <= 'f' || 'A' <= c <= 'F'
  }

  predicate IsLowerHexDigit(c: char) {
    '0' <= c <= '9' || 'a' <= c <= 'f'
  }

  function HexValue(c: char): (v: nat)
    requires IsHexDigit(c)
    ensures v < 16
  {
    if '0' <= c <= '9' then c as int - '0' as int
    else if 'a' <= c <= 'f' then c as int - 'a' as int + 10
    else c as int - 'A' as int + 10
  }

  /** The lower-case hex digit of a value below 16 (the `x` format). */
  function HexChar(v: nat): (c: char)
    requires v < 16
    ensures IsLowerHexDigit(c) && IsHexDigit(c) && HexValue(c) == v
  {
    if v < 10 then ('0' as int + v) as char else ('a' as int + v - 10) as char
  }

  lemma HexCharOfValue(c: char)
    requires IsLowerHexDigit(c)
    ensures HexChar(HexValue(c)) == c
  {}

  /** Python's `s.lstrip('#')`. */
  function StripHashes(s: string): string
    decreases |s|
  {
    if |s| > 0 && s[0] == '#' then StripHashes(s[1..]) else s
  }

  /** Stripping leaves the suffix after a run of '#' characters, and that
      suffix does not start with '#'. */
  lemma {:induction false} StripHashesSuffix(s: string)
    ensures var r := StripHashes(s);
      && |r| <= |s| && r == s[|s| - |r|..]
      && (r == [] || r[0] != '#')
      && forall i :: 0 <= i < |s| - |r| ==> s[i] == '#'
    decreases |s|
  {
    if |s| > 0 && s[0] == '#' {
      StripHashesSuffix(s[1..]);
      var r := StripHashes(s);
      assert r == StripHashes(s[1..]);
      forall i | 0 <= i < |s| - |r|
        ensures s[i] == '#'
      {
        if i > 0 {
          assert s[i] == s[1..][i - 1];
        }
      }
    }
  }

  /** Python's slice `s[i:i+2]`, clipped to the string. */
  function Field(s: string, i: nat): (f: string)
    ensures |f| <= 2
  {
    var lo := if i <= |s| then i else |s|;
    var hi := if i + 2 <= |s| then i + 2 else |s|;
    s[lo..hi]
  }

  /** Python's `int(f, 16)` on a field of at most two characters, for fields
      made of ASCII hex digits; anything else (here: an empty field or a
      non-digit) raises. */
  function ParseField(f: string): (v: Option<Channel>)
    requires |f| <= 2
    ensures v.Some? <==> |f| >= 1 && forall i :: 0 <= i < |f| ==> IsHexDigit(f[i])
  {
    if |f| == 1 && IsHexDigit(f[0]) then Some(HexValue(f[0]))
    else if |f| == 2 && IsHexDigit(f[0]) && IsHexDigit(f[1]) then Some(16 * HexValue(f[0]) + HexValue(f[1]))
    else None
  }

  function InvalidLiteral(f: string): string {
    "invalid literal for int() with base 16: '" + f + "'"
  }

  /** `hex_to_rgb`: strip leading '#' characters and read the fields [0:2],
      [2:4] and [4:6] in base 16; characters after the sixth are ignored. */
  function HexToRgb(hex: string): Result<Rgb> {
    var s := StripHashes(hex);
    var r := ParseField(Field(s, 0));
    var g := ParseField(Field(s, 2));
    var b := ParseField(Field(s, 4));
    if r.None? then Error(InvalidLiteral(Field(s, 0)))
    else if g.None? then Error(InvalidLiteral(Field(s, 2)))
    else if b.None? then Error(InvalidLiteral(Field(s, 4)))
    else Ok(Rgb(r.value, g.value, b.value))
  }

  /** The string has at least five characters after the stripped '#'s and its
      first six (or five) characters are hex digits. */
  ghost predicate WellFormedHex(s: string) {
    |s| >= 5 && forall i :: 0 <= i < |s| && i < 6 ==> IsHexDigit(s[i])
  }

  /** The channel read from the field starting at `i`: two digits, or one at the end. */
  ghost function DigitsAt(s: string, i: nat): int
    requires i < |s| && IsHexDigit(s[i]) && (i + 1 < |s| ==> IsHexDigit(s[i + 1]))
  {
    if i + 1 < |s| then 16 * HexValue(s[i]) + HexValue(s[i + 1]) else HexValue(s[i])
  }

  lemma ParseFieldAt(s: string, i: nat)
    ensures ParseField(Field(s, i)).Some? <==>
              i < |s| && IsHexDigit(s[i]) && (i + 1 < |s| ==> IsHexDigit(s[i + 1]))
    ensures ParseField(Field(s, i)).Some? ==> ParseField(Field(s, i)).value == DigitsAt(s, i)
  {
    var f := Field(s, i);
    if i + 2 <= |s| {
      assert f == [s[i], s[i + 1]];
    } else if i < |s| {
      assert f == [s[i]];
    } else {
      assert f == [];
    }
  }

  /** The three fields parse exactly when the stripped string is well formed. */
  lemma FieldsParse(s: string)
    ensures (ParseField(Field(s, 0)).Some? && ParseField(Field(s, 2)).Some? && ParseField(Field(s, 4)).Some?)
              <==> WellFormedHex(s)
  {
    ParseFieldAt(s, 0);
    ParseFieldAt(s, 2);
    ParseFieldAt(s, 4);
    if WellFormedHex(s) {
      assert IsHexDigit(s[0]) && IsHexDigit(s[1]) && IsHexDigit(s[2]) && IsHexDigit(s[3]) && IsHexDigit(s[4]);
      assert 5 < |s| ==> IsHexDigit(s[5]);
    }
  }

  /** `hex_to_rgb` succeeds exactly on well-formed input, and then each channel
      is the base-16 value of its two digits (so each lies in 0..255). */
  lemma {:induction false} HexToRgbDigits(hex: string)
    ensures HexToRgb(hex).Ok? <==> WellFormedHex(StripHashes(hex))
    ensures var s := StripHashes(hex);
      WellFormedHex(s) && |s| >= 6 ==>
        && IsHexDigit(s[0]) && IsHexDigit(s[1]) && IsHexDigit(s[2])
        && IsHexDigit(s[3]) && IsHexDigit(s[4]) && IsHexDigit(s[5])
        && HexToRgb(hex).value.r == 16 * HexValue(s[0]) + HexValue(s[1])
        && HexToRgb(hex).value.g == 16 * HexValue(s[2]) + HexValue(s[3])
        && HexToRgb(hex).value.b == 16 * HexValue(s[4]) + HexValue(s[5])
  {
    var s := StripHashes(hex);
    FieldsParse(s);
    if WellFormedHex(s) && |s| >= 6 {
      assert IsHexDigit(s[0]) && IsHexDigit(s[1]) && IsHexDigit(s[2]);
      assert IsHexDigit(s[3]) && IsHexDigit(s[4]) && IsHexDigit(s[5]);
      ParseFieldAt(s, 0);
      ParseFieldAt(s, 2);
      ParseFieldAt(s, 4);
    }
  }

  /** Two lower-case hex digits of a channel (the `02x` format). */
  function HexByte(v: Channel): (f: string)
    ensures |f| == 2 && IsLowerHexDigit(f[0]) && IsLowerHexDigit(f[1])
    ensures ParseField(f) == Some(v)
  {
    [HexChar(v / 16), HexChar(v % 16)]
  }

  /** `rgb_to_hex`: '#' followed by exactly six lower-case hex digits. */
  function RgbToHex(c: Rgb): (hex: string)
    ensures |hex| == 7 && hex[0] == '#'
    ensures forall i :: 1 <= i < 7 ==> IsLowerHexDigit(hex[i])
  {
    "#" + HexByte(c.r) + HexByte(c.g) + HexByte(c.b)
  }

  /** Formatting a colour and reading it back gives the same colour. */
  lemma {:induction false} HexRoundTrip(c: Rgb)
    ensures HexToRgb(RgbToHex(c)) == Ok(c)
  {
    var hex := RgbToHex(c);
    var hr, hg, hb := HexByte(c.r), HexByte(c.g), HexByte(c.b);
    var s := hr + hg + hb;
    assert hex == "#" + s;
    assert hex[1..] == s;
    assert s[0] == hr[0] && s[0] != '#';
    assert StripHashes(s) == s;
    assert StripHashes(hex) == s;
    assert Field(s, 0) == s[0..2] == hr;
    assert Field(s, 2) == s[2..4] == hg;
    assert Field(s, 4) == s[4..6] == hb;
  }

  /** The reader's colours ('#' and six lower-case digits) survive a round trip. */
  lemma {:induction false} HexNormalRoundTrip(hex: string)
    requires |hex| == 7 && hex[0] == '#'
    requires forall i :: 1 <= i < 7 ==> IsLowerHexDigit(hex[i])
    ensures HexToRgb(hex).Ok? && RgbToHex(HexToRgb(hex).value) == hex
  {
    var s := hex[1..];
    assert IsLowerHexDigit(hex[1]);
    assert StripHashes(s) == s;
    assert StripHashes(hex) == s;
    assert WellFormedHex(s);
    HexToRgbDigits(hex);
    var c := HexToRgb(hex).value;
    ByteDigits(c.r, s[0], s[1]);
    ByteDigits(c.g, s[2], s[3]);
    ByteDigits(c.b, s[4], s[5]);
    assert RgbToHex(c) == "#" + [s[0], s[1]] + [s[2], s[3]] + [s[4], s[5]];
  }

  lemma ByteDigits(v: Channel, hi: char, lo: char)
    requires IsLowerHexDigit(hi) && IsLowerHexDigit(lo)
    requires v == 16 * HexValue(hi) + HexValue(lo)
    ensures HexByte(v) == [hi, lo]
  {
    assert v / 16 == HexValue(hi) && v % 16 == HexValue(lo);
    HexCharOfValue(hi);
    HexCharOfValue(lo);
  }

  // ---------------------------------------------------------------------------
  // Luminance and contrast ratio (WCAG 2.1 glossary)
  // ---------------------------------------------------------------------------

  /** Stands for Python's `x ** 2.4` on [0, 1]: a rational approximation
      (within 0.00065 of x^2.4 where it is used) that is exact at 0 and 1 and
      maps [0, 1] into [0, 1]; nothing about the engine relies on more. */
  function Pow24(x: real): (y: real)
    requires 0.0 <= x
    ensures x <= 1.0 ==> 0.0 <= y <= 1.0
    ensures x == 0.0 ==> y == 0.0
    ensures x == 1.0 ==> y == 1.0
  {
    var q := (0.34 + 1.36 * x) / (1.0 + 0.7 * x);
    QuotientUnit(0.34 + 1.36 * x, 1.0 + 0.7 * x);
    var sq := x * x;
    ProductUnit(x, x);
    ProductUnit(sq, q);
    sq * q
  }

  lemma QuotientUnit(a: real, b: real)
    requires 0.0 <= a && 0.0 < b
    ensures 0.0 <= a / b
    ensures a <= b ==> a / b <= 1.0
  {}

  lemma ProductUnit(a: real, b: real)
    requires 0.0 <= a && 0.0 <= b
    ensures 0.0 <= a * b
    ensures a <= 1.0 && b <= 1.0 ==> a * b <= 1.0
  {
    if a <= 1.0 && b <= 1.0 {
      assert a * b <= a * 1.0;
    }
  }

  /** The gamma expansion of one normalised channel value, with the knee at 0.03928. */
  function GammaCorrect(v: real): (lin: real)
    requires 0.0 <= v <= 1.0
    ensures 0.0 <= lin <= 1.0
    ensures v == 0.0 ==> lin == 0.0
    ensures v == 1.0 ==> lin == 1.0
  {
    if v <= 0.03928 then v / 12.92 else Pow24((v + 0.055) / 1.055)
  }

  /** `get_relative_luminance`: 0.2126 R + 0.7152 G + 0.0722 B of the
      gamma-expanded channels; 0 for black, 1 for white, always in [0, 1]. */
  function RelativeLuminance(c: Rgb): (l: real)
    ensures 0.0 <= l <= 1.0
    ensures c == Black ==> l == 0.0
    ensures c == White ==> l == 1.0
  {
    0.2126 * GammaCorrect(c.r as real / 255.0)
    + 0.7152 * GammaCorrect(c.g as real / 255.0)
    + 0.0722 * GammaCorrect(c.b as real / 255.0)
  }

  /** (lighter + 0.05) / (darker + 0.05) for two luminances. */
  function RatioOf(l1: real, l2: real): (ratio: real)
    requires 0.0 <= l1 && 0.0 <= l2
    ensures 1.0 <= ratio
    ensures l1 <= 1.0 && l2 <= 1.0 ==> ratio <= 21.0
    ensures l1 == l2 ==> ratio == 1.0
  {
    var hi := if l1 < l2 then l2 else l1;
    var lo := if l1 < l2 then l1 else l2;
    QuotientBounds(hi + 0.05, lo + 0.05);
    (hi + 0.05) / (lo + 0.05)
  }

  lemma QuotientBounds(a: real, b: real)
    requires 0.0 < b <= a
    ensures 1.0 <= a / b
    ensures a <= 21.0 * b ==> a / b <= 21.0
    ensures a == b ==> a / b == 1.0
  {
    QuotientAtLeastOne(a, b);
    if a <= 21.0 * b {
      QuotientAtMost(a, b);
    }
    if a == b {
      QuotientSelf(a);
    }
  }

  lemma QuotientSelf(a: real)
    requires 0.0 < a
    ensures a / a == 1.0
  {}

  lemma QuotientAtLeastOne(a: real, b: real)
    requires 0.0 < b <= a
    ensures 1.0 <= a / b
  {}

  lemma QuotientAtMost(a: real, b: real)
    requires 0.0 < b && a <= 21.0 * b
    ensures a / b <= 21.0
  {}

  /** The luminance ratio does not depend on the order of its arguments. */
  lemma RatioSymmetric(l1: real, l2: real)
    requires 0.0 <= l1 && 0.0 <= l2
    ensures RatioOf(l1, l2) == RatioOf(l2, l1)
  {}

  /** `get_contrast_ratio`: raises when either colour is malformed; otherwise
      the ratio of the two luminances, which lies in [1, 21]. */
  function ContrastRatio(color1: string, color2: string): (ratio: Result<real>)
    ensures ratio.Ok? <==> HexToRgb(color1).Ok? && HexToRgb(color2).Ok?
    ensures ratio.Ok? ==> 1.0 <= ratio.value <= 21.0
    ensures ratio.Ok? ==> ratio.value == RatioOf(RelativeLuminance(HexToRgb(color1).value),
                                                 RelativeLuminance(HexToRgb(color2).value))
  {
    match HexToRgb(color1)
    case Error(e) => Error(e)
    case Ok(rgb1) =>
      match HexToRgb(color2)
      case Error(e) => Error(e)
      case Ok(rgb2) => Ok(RatioOf(RelativeLuminance(rgb1), RelativeLuminance(rgb2)))
  }

  /** The contrast ratio is symmetric in its two colours. */
  lemma ContrastSymmetric(color1: string, color2: string)
    ensures ContrastRatio(color1, color2).Ok? == ContrastRatio(color2, color1).Ok?
    ensures ContrastRatio(color1, color2).Ok? ==>
              ContrastRatio(color1, color2).value == ContrastRatio(color2, color1).value
  {
    if ContrastRatio(color1, color2).Ok? {
      RatioSymmetric(RelativeLuminance(HexToRgb(color1).value), RelativeLuminance(HexToRgb(color2).value));
    }
  }

  /** A colour against itself has contrast ratio exactly 1. */
  lemma ContrastSelf(color: string)
    requires HexToRgb(color).Ok?
    ensures ContrastRatio(color, color) == Ok(1.0)
  {}

  /** Black on white has the maximal contrast ratio 21. */
  lemma BlackOnWhite()
    ensures ContrastRatio(BlackHex, WhiteHex) == Ok(21.0)
  {
    BlackHexParses();
    WhiteHexParses();
    var dark := RelativeLuminance(Black);
    var light := RelativeLuminance(White);
    assert dark == 0.0 && light == 1.0;
    assert RatioOf(0.0, 1.0) == 21.0;
  }

  lemma BlackHexParses()
    ensures HexToRgb(BlackHex) == Ok(Black)
  {
    assert RgbToHex(Black) == BlackHex;
    HexRoundTrip(Black);
  }

  lemma WhiteHexParses()
    ensures HexToRgb(WhiteHex) == Ok(White)
  {
    assert WhiteHex == "#" + "FFFFFF";
    assert StripHashes("FFFFFF") == "FFFFFF";
    HexToRgbDigits(WhiteHex);
  }

  // ---------------------------------------------------------------------------
  // WCAG thresholds
  // ---------------------------------------------------------------------------

  /** `meets_wcag_aa` (success criterion 1.4.3): 4.5:1, relaxed to 3:1 for large text. */
  function MeetsAA(ratio: real, largeText: bool := false): (ok: bool)
    ensures ok <==> ratio >= (if largeText then 3.0 else 4.5)
  {
    if largeText then ratio >= 3.0 else ratio >= 4.5
  }

  /** `meets_wcag_aaa` (success criterion 1.4.6): 7:1, relaxed to 4.5:1 for large text. */
  function MeetsAAA(ratio: real, largeText: bool := false): (ok: bool)
    ensures ok <==> ratio >= (if largeText then 4.5 else 7.0)
  {
    if largeText then ratio >= 4.5 else ratio >= 7.0
  }

  /** Enhanced contrast implies minimum contrast for the same text size, the
      large-text relaxation only ever helps, and a higher ratio never fails
      where a lower one passes. */
  lemma ThresholdsOrdered(ratio: real, higher: real, largeText: bool)
    requires ratio <= higher
    ensures MeetsAAA(ratio, largeText) ==> MeetsAA(ratio, largeText)
    ensures MeetsAA(ratio, false) ==> MeetsAA(ratio, true)
    ensures MeetsAAA(ratio, false) ==> MeetsAAA(ratio, true)
    ensures MeetsAA(ratio, largeText) ==> MeetsAA(higher, largeText)
    ensures MeetsAAA(ratio, largeText) ==> MeetsAAA(higher, largeText)
  {}

  // ---------------------------------------------------------------------------
  // Colour suggestion search
  // ---------------------------------------------------------------------------

  datatype Direction = Darker | Lighter

  /** k twentieths of `whole`, rounded down: the truncating `int(...)` of a
      multiple of 0.05. */
  function Twentieths(whole: nat, k: nat): (p: nat)
    requires k <= 20
    ensures p <= whole
  {
    TwentiethsMonotone(whole, k, 20);
    whole * k / 20
  }

  /** More twentieths never give less, and twenty of them give the whole. */
  lemma TwentiethsMonotone(whole: nat, j: nat, k: nat)
    requires j <= k <= 20
    ensures 0 <= whole * j / 20 <= whole * k / 20 <= whole
  {
    MulMonotone(whole, 0, j);
    MulMonotone(whole, j, k);
    MulMonotone(whole, k, 20);
    DivMonotone(whole * j, whole * k);
    DivMonotone(whole * k, whole * 20);
    assert whole * 20 / 20 == whole;
  }

  lemma MulMonotone(a: nat, j: nat, k: nat)
    requires j <= k
    ensures a * j <= a * k
  {
    assert a * k == a * j + a * (k - j);
  }

  lemma DivMonotone(a: nat, b: nat)
    requires a <= b
    ensures a / 20 <= b / 20
  {}

  /** Step k of the darker search: each channel scaled by (1 - 0.05 k). */
  function DarkenChannel(c: Channel, k: nat): (d: Channel)
    requires k <= 20
    ensures d <= c
  {
    Twentieths(c, 20 - k)
  }

  /** Step k of the lighter search: each channel moved 0.05 k of the way to
      255, capped at 255. */
  function LightenChannel(c: Channel, k: nat): (d: Channel)
    requires k <= 20
    ensures c <= d
  {
    var v := c + Twentieths(255 - c, k);
    if v < 255 then v else 255
  }

  function Candidate(c: Rgb, k: nat, dir: Direction): Rgb
    requires k <= 20
  {
    match dir
    case Darker => Rgb(DarkenChannel(c.r, k), DarkenChannel(c.g, k), DarkenChannel(c.b, k))
    case Lighter => Rgb(LightenChannel(c.r, k), LightenChannel(c.g, k), LightenChannel(c.b, k))
  }

  function Fallback(dir: Direction): string {
    match dir
    case Darker => BlackHex
    case Lighter => WhiteHex
  }

  /** Darker steps never raise a channel and go down as k grows. */
  lemma DarkerStepsMonotone(c: Channel, j: nat, k: nat)
    requires j <= k <= 20
    ensures DarkenChannel(c, k) <= DarkenChannel(c, j) <= c
  {
    TwentiethsMonotone(c, 20 - k, 20 - j);
  }

  /** Lighter steps never lower a channel, never pass 255 and go up as k grows. */
  lemma LighterStepsMonotone(c: Channel, j: nat, k: nat)
    requires j <= k <= 20
    ensures c <= LightenChannel(c, j) <= LightenChannel(c, k) <= 255
  {
    TwentiethsMonotone(255 - c, j, k);
  }

  /** What step k of the search decides: the candidate's contrast against the
      background reaches the target (`Ok(true)`), falls short (`Ok(false)`), or
      one of the two colours does not parse (`Error`). */
  function StepOutcome(c: Rgb, target: real, background: string, dir: Direction, k: nat): Result<bool>
    requires k <= 20
  {
    match ContrastRatio(RgbToHex(Candidate(c, k, dir)), background)
    case Error(e) => Error(e)
    case Ok(ratio) => Ok(ratio >= target)
  }

  /** With a well-formed background every step decides, by the candidate's
      luminance against the background's. */
  lemma StepOutcomeOk(c: Rgb, target: real, background: string, dir: Direction, k: nat)
    requires k <= 20
    requires HexToRgb(background).Ok?
    ensures StepOutcome(c, target, background, dir, k)
         == Ok(RatioOf(RelativeLuminance(Candidate(c, k, dir)), RelativeLuminance(HexToRgb(background).value)) >= target)
  {
    HexRoundTrip(Candidate(c, k, dir));
  }

  /** The outcomes of all the steps of one search. */
  function Outcomes(c: Rgb, target: real, background: string, dir: Direction): nat -> Result<bool> {
    (k: nat) => if k <= 20 then StepOutcome(c, target, background, dir, k) else Ok(false)
  }

  /** The first step j (k <= j < 20) whose outcome is `Ok(true)`, `Ok(None)` when
      every step falls short, the first error otherwise. */
  function FirstMeeting(outcome: nat -> Result<bool>, k: nat): (r: Result<Option<nat>>)
    requires k <= 20
    ensures r.Ok? && r.value.Some? ==>
      var j := r.value.value;
      k <= j < 20 && outcome(j) == Ok(true) && forall i :: k <= i < j ==> outcome(i) == Ok(false)
    ensures r.Ok? && r.value.None? ==> forall i :: k <= i < 20 ==> outcome(i) == Ok(false)
    ensures r.Error? ==>
      exists j :: k <= j < 20 && outcome(j) == Error(r.message) && forall i :: k <= i < j ==> outcome(i) == Ok(false)
    ensures (forall i :: k <= i < 20 ==> outcome(i).Ok?) ==> r.Ok?
    decreases 20 - k
  {
    if k == 20 then Ok(None)
    else
      match outcome(k)
      case Error(e) => Error(e)
      case Ok(meets) => if meets then Ok(Some(k)) else FirstMeeting(outcome, k + 1)
  }

  /** The search once the colour is parsed: the candidate of the first step
      below 20 that reaches the target, else the fallback colour. */
  function SuggestFor(c: Rgb, target: real, background: string, dir: Direction): Result<string> {
    match FirstMeeting(Outcomes(c, target, background, dir), 1)
    case Error(e) => Error(e)
    case Ok(None) => Ok(Fallback(dir))
    case Ok(Some(k)) => Ok(RgbToHex(Candidate(c, k, dir)))
  }

  /** `suggest_darker_color` / `suggest_lighter_color` as a value: raises when
      the colour is malformed, or (at the first step) when the background is. */
  function Suggest(hex: string, target: real, background: string, dir: Direction): Result<string> {
    match HexToRgb(hex)
    case Error(e) => Error(e)
    case Ok(c) => SuggestFor(c, target, background, dir)
  }

  /** With a well-formed background no step raises. */
  lemma OutcomesDecide(c: Rgb, target: real, background: string, dir: Direction)
    requires HexToRgb(background).Ok?
    ensures forall i :: 1 <= i < 20 ==> Outcomes(c, target, background, dir)(i).Ok?
  {
    forall i | 1 <= i < 20
      ensures Outcomes(c, target, background, dir)(i).Ok?
    {
      StepOutcomeOk(c, target, background, dir, i);
    }
  }

  /** With well-formed colours the suggestion never raises; it is the candidate
      of the first step that reaches the target, or the fallback colour when
      none of steps 1..19 does. */
  lemma SuggestFinds(hex: string, target: real, background: string, dir: Direction)
    requires HexToRgb(hex).Ok? && HexToRgb(background).Ok?
    ensures var c := HexToRgb(hex).value;
      var r := Suggest(hex, target, background, dir);
      r.Ok? &&
      ((exists j :: 1 <= j < 20 && StepOutcome(c, target, background, dir, j) == Ok(true)
          && (forall i :: 1 <= i < j ==> StepOutcome(c, target, background, dir, i) == Ok(false))
          && r.value == RgbToHex(Candidate(c, j, dir)))
       || ((forall j :: 1 <= j < 20 ==> StepOutcome(c, target, background, dir, j) == Ok(false))
          && r.value == Fallback(dir)))
  {
    var c := HexToRgb(hex).value;
    var outcome := Outcomes(c, target, background, dir);
    OutcomesDecide(c, target, background, dir);
    var m := FirstMeeting(outcome, 1);
    assert m.Ok?;
    var last := if m.value.Some? then m.value.value else 20;
    forall i | 1 <= i < last
      ensures StepOutcome(c, target, background, dir, i) == Ok(false)
    {
      assert outcome(i) == Ok(false);
    }
    if m.value.Some? {
      assert StepOutcome(c, target, background, dir, last) == outcome(last);
    }
  }

  /** With well-formed colours the suggestion never raises; the result reaches
      the target against the background, or it is the fallback and none of
      steps 1 to 19 reached it; every channel of the result lies between the
      original channel and the bound of its direction (0 for darker, 255 for
      lighter). */
  lemma SuggestSound(hex: string, target: real, background: string, dir: Direction)
    requires HexToRgb(hex).Ok? && HexToRgb(background).Ok?
    ensures var c := HexToRgb(hex).value;
      var r := Suggest(hex, target, background, dir);
      r.Ok? && HexToRgb(r.value).Ok?
      && ((ContrastRatio(r.value, background).Ok? && ContrastRatio(r.value, background).value >= target)
          || (r.value == Fallback(dir)
              && forall j :: 1 <= j < 20 ==> StepOutcome(c, target, background, dir, j) == Ok(false)))
      && Between(HexToRgb(hex).value, HexToRgb(r.value).value, dir)
  {
    var c := HexToRgb(hex).value;
    var r := Suggest(hex, target, background, dir);
    SuggestFinds(hex, target, background, dir);
    if exists j :: 1 <= j < 20 && StepOutcome(c, target, background, dir, j) == Ok(true)
                   && r.value == RgbToHex(Candidate(c, j, dir)) {
      var j :| 1 <= j < 20 && StepOutcome(c, target, background, dir, j) == Ok(true)
               && r.value == RgbToHex(Candidate(c, j, dir));
      MeetingStepSound(c, target, background, dir, j);
    } else {
      FallbackSound(c, dir);
    }
  }

  /** The fallback of a direction parses, and lies between any colour and
      that direction's bound. */
  lemma FallbackSound(c: Rgb, dir: Direction)
    ensures HexToRgb(Fallback(dir)).Ok? && Between(c, HexToRgb(Fallback(dir)).value, dir)
  {
    BlackHexParses();
    WhiteHexParses();
  }

  /** A step that reaches the target gives a colour that parses back to its
      candidate, reaches the target and lies between `c` and the bound. */
  lemma MeetingStepSound(c: Rgb, target: real, background: string, dir: Direction, j: nat)
    requires j <= 20 && StepOutcome(c, target, background, dir, j) == Ok(true)
    ensures var hex := RgbToHex(Candidate(c, j, dir));
      && HexToRgb(hex) == Ok(Candidate(c, j, dir))
      && ContrastRatio(hex, background).Ok? && ContrastRatio(hex, background).value >= target
      && Between(c, Candidate(c, j, dir), dir)
  {
    HexRoundTrip(Candidate(c, j, dir));
    CandidateBetween(c, j, dir);
  }

  /** Every channel of `d` lies between the one of `c` and the bound of `dir`. */
  ghost predicate Between(c: Rgb, d: Rgb, dir: Direction) {
    match dir
    case Darker => d.r <= c.r && d.g <= c.g && d.b <= c.b
    case Lighter => c.r <= d.r && c.g <= d.g && c.b <= d.b
  }

  lemma CandidateBetween(c: Rgb, k: nat, dir: Direction)
    requires k <= 20
    ensures Between(c, Candidate(c, k, dir), dir)
  {}

  /** The loop of `suggest_darker_color` / `suggest_lighter_color` after the
      colour has been parsed: steps 1..19 with early return. */
  method SearchSteps(c: Rgb, target: real, background: string, dir: Direction) returns (r: Result<string>)
    ensures r == SuggestFor(c, target, background, dir)
  {
    ghost var outcome := Outcomes(c, target, background, dir);
    for k := 1 to 20
      invariant FirstMeeting(outcome, k) == FirstMeeting(outcome, 1)
    {
      var candidate := RgbToHex(Candidate(c, k, dir));
      var contrast := ContrastRatio(candidate, background);
      assert outcome(k) == StepOutcome(c, target, background, dir, k);
      if contrast.Error? {
        return Error(contrast.message);
      }
      if contrast.value >= target {
        return Ok(candidate);
      }
    }
    return Ok(Fallback(dir));
  }

  /** `suggest_darker_color`, with the source's default target and background. */
  method SuggestDarkerColor(hex: string, target: real := 4.5, background: string := "#FFFFFF")
    returns (r: Result<string>)
    ensures r == Suggest(hex, target, background, Darker)
  {
    var parsed := HexToRgb(hex);
    if parsed.Error? {
      return Error(parsed.message);
    }
    r := SearchSteps(parsed.value, target, background, Darker);
  }

  /** `suggest_lighter_color`, with the source's default target and background. */
  method SuggestLighterColor(hex: string, target: real := 4.5, background: string := "#000000")
    returns (r: Result<string>)
    ensures r == Suggest(hex, target, background, Lighter)
  {
    var parsed := HexToRgb(hex);
    if parsed.Error? {
      return Error(parsed.message);
    }
    r := SearchSteps(parsed.value, target, background, Lighter);
  }
}
