/** The spacing tokens: a 4px-based scale, semantic aliases, and per-component paddings. */
module Spacing {
  import opened JsNumber
  import opened Scales
  import opened Literals

  /** The base scale: key k stands for k units of 4px. */
  const scale: map<nat, string> := map[
    0 := "0px", 1 := "4px", 2 := "8px", 3 := "12px", 4 := "16px", 5 := "20px", 6 := "24px",
    7 := "28px", 8 := "32px", 10 := "40px", 12 := "48px", 16 := "64px", 20 := "80px",
    24 := "96px", 32 := "128px", 40 := "160px", 48 := "192px", 56 := "224px", 64 := "256px"]

  /** The base scale's keys in ascending order. */
  const ScaleKeys: seq<nat> := [0, 1, 2, 3, 4, 5, 6, 7, 8, 10, 12, 16, 20, 24, 32, 40, 48, 56, 64]

  /**
   * Semantic aliases, which share the top level of the source object with the
   * base scale; the keys `2xl` and `3xl` are spelt `xl2` and `xl3`.
   */
  datatype SemanticSpacing = SemanticSpacing(xs: string, sm: string, md: string, lg: string, xl: string, xl2: string, xl3: string)

  const semantic := SemanticSpacing("4px", "8px", "16px", "24px", "32px", "48px", "64px")

  datatype ComponentSpacing = ComponentSpacing(
    buttonPaddingX: string, buttonPaddingY: string,
    buttonPaddingXSmall: string, buttonPaddingYSmall: string,
    buttonPaddingXLarge: string, buttonPaddingYLarge: string,
    inputPaddingX: string, inputPaddingY: string,
    cardPadding: string, cardPaddingLarge: string,
    pageMarginX: string, pageMarginY: string,
    sectionSpacing: string, sectionSpacingLarge: string)

  const component: ComponentSpacing := ComponentSpacing(
    "16px", "12px", "12px", "8px", "24px", "16px",
    "16px", "12px", "16px", "24px", "16px", "24px", "32px", "48px")

  datatype LayoutSpacing = LayoutSpacing(
    containerSm: string, containerMd: string, containerLg: string, containerXl: string,
    gutterSm: string, gutterMd: string, gutterLg: string,
    gridGapSm: string, gridGapMd: string, gridGapLg: string)

  const layout: LayoutSpacing := LayoutSpacing(
    "640px", "768px", "1024px", "1280px", "16px", "24px", "32px", "8px", "16px", "24px")

  /** Every key of the base scale, and only those, is listed in ScaleKeys. */
  lemma ScaleKeysComplete()
    ensures scale.Keys == set k | k in ScaleKeys
  {
  }

  /** Each base entry k is the pixel string of 4 * k, so parsing it gives 4 * k. */
  lemma ScaleIsFourTimesKey()
    ensures forall k :: k in scale ==> scale[k] == Px(Int(4 * k)) && ParseInt(scale[k]) == Int(4 * k)
  {
    forall k | k in scale ensures scale[k] == Px(Int(4 * k)) && ParseInt(scale[k]) == Int(4 * k) {
      if k <= 8 { ScaleEntryLow(k); } else if k <= 24 { ScaleEntryMiddle(k); } else { ScaleEntryHigh(k); }
      ParsePx(4 * k);
    }
  }

  lemma ScaleEntryLow(k: nat)
    requires k in scale && k <= 8
    ensures scale[k] == Px(Int(4 * k))
  {
    if k == 0 { Px0(); }
    else if k == 1 { Px4(); }
    else if k == 2 { Px8(); }
    else if k == 3 { Px12(); }
    else if k == 4 { Px16(); }
    else if k == 5 { Px20(); }
    else if k == 6 { Px24(); }
    else if k == 7 { Px28(); }
    else { Px32(); }
  }

  lemma ScaleEntryMiddle(k: nat)
    requires k in scale && 8 < k <= 24
    ensures scale[k] == Px(Int(4 * k))
  {
    if k == 10 { Px40(); }
    else if k == 12 { Px48(); }
    else if k == 16 { Px64(); }
    else if k == 20 { Px80(); }
    else { Px96(); }
  }

  lemma ScaleEntryHigh(k: nat)
    requires k in scale && k > 24
    ensures scale[k] == Px(Int(4 * k))
  {
    if k == 32 { Px128(); }
    else if k == 40 { Px160(); }
    else if k == 48 { Px192(); }
    else if k == 56 { Px224(); }
    else { Px256(); }
  }

  /** The semantic aliases are base-scale entries. */
  lemma AliasesAreScaleEntries()
    ensures semantic.xs == scale[1] && semantic.sm == scale[2] && semantic.md == scale[4]
    ensures semantic.lg == scale[6] && semantic.xl == scale[8]
    ensures semantic.xl2 == scale[12] && semantic.xl3 == scale[16]
  {
  }

  /** The button paddings, as pixel strings, for small, medium and large. */
  lemma ButtonPaddings()
    ensures component.buttonPaddingXSmall == Px(Int(12)) && component.buttonPaddingYSmall == Px(Int(8))
    ensures component.buttonPaddingX == Px(Int(16)) && component.buttonPaddingY == Px(Int(12))
    ensures component.buttonPaddingXLarge == Px(Int(24)) && component.buttonPaddingYLarge == Px(Int(16))
  {
    Px8(); Px12(); Px16(); Px24();
  }

  /** Parsing the button paddings gives their numbers, which grow from small to large. */
  lemma ButtonPaddingsIncrease()
    ensures ParseInt(component.buttonPaddingXSmall) == Int(12)
    ensures ParseInt(component.buttonPaddingX) == Int(16)
    ensures ParseInt(component.buttonPaddingXLarge) == Int(24)
    ensures ParseInt(component.buttonPaddingYSmall) == Int(8)
    ensures ParseInt(component.buttonPaddingY) == Int(12)
    ensures ParseInt(component.buttonPaddingYLarge) == Int(16)
    ensures ParseInt(component.buttonPaddingXSmall).value < ParseInt(component.buttonPaddingX).value
              < ParseInt(component.buttonPaddingXLarge).value
    ensures ParseInt(component.buttonPaddingYSmall).value < ParseInt(component.buttonPaddingY).value
              < ParseInt(component.buttonPaddingYLarge).value
  {
    ButtonPaddings();
    ParsePx(12); ParsePx(16); ParsePx(24); ParsePx(8);
  }
}
