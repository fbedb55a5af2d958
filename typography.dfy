/**
 * The typography tokens: families, weights, sizes, line heights, letter
 * spacings and precomposed text styles. Each group is a record; a key that
 * begins with a digit in the source (`2xl`) is spelt with the digit last (`xl2`).
 */
module Typography {
  import opened Wrappers
  import opened JsNumber
  import opened Scales
  import opened Literals

  datatype FontFamilies = FontFamilies(primary: string, mono: string, fallback: string)
  /** The weights in use; thin and light weights are deliberately absent. */
  datatype FontWeights = FontWeights(regular: string, medium: string, semibold: string, bold: string, black: string)
  datatype FontSizes = FontSizes(
    xs: string, sm: string, base: string, lg: string, xl: string,
    xl2: string, xl3: string, xl4: string, xl5: string, xl6: string)
  datatype LineHeights = LineHeights(tight: string, normal: string, relaxed: string, loose: string)
  datatype LetterSpacings = LetterSpacings(tight: string, normal: string, wide: string, wider: string, widest: string)

  /** A precomposed text style; only the mono styles set a text transform. */
  datatype TextStyle = TextStyle(
    fontFamily: string,
    fontSize: string,
    fontWeight: string,
    lineHeight: string,
    letterSpacing: string,
    textTransform: Option<string>)

  datatype TextStyles = TextStyles(
    h1: TextStyle, h2: TextStyle, h3: TextStyle, h4: TextStyle,
    bodyLarge: TextStyle, body: TextStyle, bodySmall: TextStyle,
    button: TextStyle, caption: TextStyle,
    mono: TextStyle, monoLarge: TextStyle)

  const fontFamily := FontFamilies(
    "Degular", "Degular Mono", "Inter, -apple-system, BlinkMacSystemFont, \"Segoe UI\", Roboto, sans-serif")

  const fontWeight := FontWeights("400", "500", "600", "700", "900")

  const fontSize := FontSizes("12px", "14px", "16px", "18px", "20px", "24px", "30px", "36px", "48px", "64px")

  const lineHeight := LineHeights("1.2", "1.4", "1.6", "1.8")

  const letterSpacing := LetterSpacings("-0.025em", "0", "0.025em", "0.05em", "0.1em")

  const textStyles := TextStyles(
    TextStyle("Degular", "36px", "700", "1.2", "-0.025em", None),
    TextStyle("Degular", "30px", "600", "1.2", "-0.025em", None),
    TextStyle("Degular", "24px", "600", "1.2", "0", None),
    TextStyle("Degular", "20px", "500", "1.4", "0", None),
    TextStyle("Degular", "18px", "400", "1.6", "0", None),
    TextStyle("Degular", "16px", "400", "1.6", "0", None),
    TextStyle("Degular", "14px", "400", "1.4", "0.025em", None),
    TextStyle("Degular", "16px", "500", "1.4", "0", None),
    TextStyle("Degular", "12px", "400", "1.4", "0.025em", None),
    TextStyle("Degular Mono", "14px", "400", "1.4", "0.1em", Some("uppercase")),
    TextStyle("Degular Mono", "16px", "500", "1.4", "0.1em", Some("uppercase")))

  /** The size scale from xs to 6xl. */
  function SizeScale(): seq<string> {
    [fontSize.xs, fontSize.sm, fontSize.base, fontSize.lg, fontSize.xl,
     fontSize.xl2, fontSize.xl3, fontSize.xl4, fontSize.xl5, fontSize.xl6]
  }

  function WeightScale(): seq<string> {
    [fontWeight.regular, fontWeight.medium, fontWeight.semibold, fontWeight.bold, fontWeight.black]
  }

  function LineHeightScale(): seq<string> {
    [lineHeight.tight, lineHeight.normal, lineHeight.relaxed, lineHeight.loose]
  }

  function LetterSpacingScale(): seq<string> {
    [letterSpacing.tight, letterSpacing.normal, letterSpacing.wide, letterSpacing.wider, letterSpacing.widest]
  }

  function AllTextStyles(): seq<TextStyle> {
    [textStyles.h1, textStyles.h2, textStyles.h3, textStyles.h4,
     textStyles.bodyLarge, textStyles.body, textStyles.bodySmall,
     textStyles.button, textStyles.caption, textStyles.mono, textStyles.monoLarge]
  }

  /** The pixel value each size of the scale stands for, smallest first. */
  const SizePx: seq<int> := [12, 14, 16, 18, 20, 24, 30, 36, 48, 64]

  /** Each size is the pixel string of its value. */
  lemma SizesArePixelStrings()
    ensures |SizeScale()| == |SizePx|
    ensures forall i :: 0 <= i < |SizePx| ==> SizeScale()[i] == Px(Int(SizePx[i]))
  {
    forall i | 0 <= i < |SizePx| ensures SizeScale()[i] == Px(Int(SizePx[i])) {
      SizeIsPixelString(i);
    }
  }

  lemma SizeIsPixelString(i: nat)
    requires i < |SizePx|
    ensures SizeScale()[i] == Px(Int(SizePx[i]))
  {
    assert SizeScale() == ["12px", "14px", "16px", "18px", "20px", "24px", "30px", "36px", "48px", "64px"];
    if i == 0 { Px12(); } else if i == 1 { Px14(); } else if i == 2 { Px16(); }
    else if i == 3 { Px18(); } else if i == 4 { Px20(); } else if i == 5 { Px24(); }
    else if i == 6 { Px30(); } else if i == 7 { Px36(); } else if i == 8 { Px48(); } else { Px64(); }
  }

  /** The size scale parses, with `parseInt`, to sizes that strictly increase from xs to 6xl. */
  lemma FontSizesIncrease()
    ensures |SizeScale()| == |SizePx|
    ensures forall i :: 0 <= i < |SizePx| ==> ParseInt(SizeScale()[i]) == Int(SizePx[i])
    ensures StrictlyIncreasing(SizePx)
  {
    SizesArePixelStrings();
    forall i | 0 <= i < |SizePx| ensures ParseInt(SizeScale()[i]) == Int(SizePx[i]) {
      ParsePx(SizePx[i]);
    }
    SizePxIncrease();
  }

  lemma SizePxIncrease()
    ensures StrictlyIncreasing(SizePx)
  {
    StepsUpIncreasing(SizePx);
  }

  /** The sizes the Button size tables read. */
  lemma ButtonSizesParse()
    ensures ParseInt(fontSize.sm) == Int(14)
    ensures ParseInt(fontSize.base) == Int(16)
    ensures ParseInt(fontSize.lg) == Int(18)
  {
    Px14(); Px16(); Px18();
    ParsePx(14); ParsePx(16); ParsePx(18);
  }

  /** The number each weight stands for, lightest first. */
  const WeightValues: seq<int> := [400, 500, 600, 700, 900]

  /** The weights are exactly 400, 500, 600, 700 and 900. */
  lemma WeightNames()
    ensures WeightScale() == ["400", "500", "600", "700", "900"]
  {
  }

  /** Each weight is the decimal rendering of its value. */
  lemma WeightsAreDecimals()
    ensures |WeightScale()| == |WeightValues|
    ensures forall i :: 0 <= i < |WeightValues| ==> WeightScale()[i] == IntToString(WeightValues[i])
  {
    forall i | 0 <= i < |WeightValues| ensures WeightScale()[i] == IntToString(WeightValues[i]) {
      WeightIsDecimal(i);
    }
  }

  lemma WeightIsDecimal(i: nat)
    requires i < |WeightValues|
    ensures WeightScale()[i] == IntToString(WeightValues[i])
  {
    WeightNames();
    if i == 0 { Decimal400(); } else if i == 1 { Decimal500(); } else if i == 2 { Decimal600(); }
    else if i == 3 { Decimal700(); } else { Decimal900(); }
  }

  /** Every weight parses to its value, and every value is at least 400: none is thinner than regular. */
  lemma WeightsAvoidThin()
    ensures |WeightScale()| == |WeightValues|
    ensures forall i :: 0 <= i < |WeightValues| ==> ParseInt(WeightScale()[i]) == Int(WeightValues[i])
    ensures forall i :: 0 <= i < |WeightValues| ==> WeightValues[i] >= 400
  {
    WeightsAreDecimals();
    forall i | 0 <= i < |WeightValues| ensures ParseInt(WeightScale()[i]) == Int(WeightValues[i]) {
      ParseDecimal(WeightValues[i]);
    }
  }

  /** Every field of every text style takes a value from the matching scale. */
  lemma TextStylesUseScales()
    ensures forall i :: 0 <= i < |AllTextStyles()| ==>
      AllTextStyles()[i].fontSize in SizeScale() && AllTextStyles()[i].fontWeight in WeightScale() &&
      AllTextStyles()[i].lineHeight in LineHeightScale() && AllTextStyles()[i].letterSpacing in LetterSpacingScale()
  {
    var z, w, h, l := SizeScale(), WeightScale(), LineHeightScale(), LetterSpacingScale();
    assert z[0] == "12px" && z[1] == "14px" && z[2] == "16px" && z[3] == "18px";
    assert z[4] == "20px" && z[5] == "24px" && z[6] == "30px" && z[7] == "36px";
    assert w[0] == "400" && w[1] == "500" && w[2] == "600" && w[3] == "700";
    assert h[0] == "1.2" && h[1] == "1.4" && h[2] == "1.6";
    assert l[0] == "-0.025em" && l[1] == "0" && l[2] == "0.025em" && l[4] == "0.1em";
  }

  /** Only the mono styles (the last two) use the mono family, and exactly they are upper-cased. */
  lemma TextStyleFamilies()
    ensures forall i :: 0 <= i < |AllTextStyles()| ==>
      if i >= 9
      then AllTextStyles()[i].fontFamily == fontFamily.mono && AllTextStyles()[i].textTransform == Some("uppercase")
      else AllTextStyles()[i].fontFamily == fontFamily.primary && AllTextStyles()[i].textTransform == None
    ensures AllTextStyles()[9] == textStyles.mono && AllTextStyles()[10] == textStyles.monoLarge
  {
  }

  /** The h1 style is the 4xl size, bold, with tight line height and tight letter spacing. */
  lemma HeadingOneStyle()
    ensures textStyles.h1 == TextStyle(fontFamily.primary, fontSize.xl4, fontWeight.bold,
                                       lineHeight.tight, letterSpacing.tight, None)
  {
  }

  /** The button text style is the base size at medium weight. */
  lemma ButtonTextStyle()
    ensures textStyles.button.fontSize == fontSize.base
    ensures textStyles.button.fontWeight == fontWeight.medium
  {
  }
}
