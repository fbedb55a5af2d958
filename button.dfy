/**
 * The React Native Button: how its props resolve, through the theme, into a
 * container style, a label style, the pressable's disabled flag and the
 * elements it shows, and when a press reaches the caller's handler.
 */
module Button {
  import opened Wrappers
  import opened JsNumber
  import opened Colors
  import opened Theme
  import Spacing
  import Typography

  /**
   * The props as a caller passes them; an option left out is None. Icons and
   * the press handler are modelled only by whether they are given.
   */
  datatype ButtonProps = ButtonProps(
    title: string,
    variant: Option<Variant>,
    size: Option<string>,
    disabled: Option<bool>,
    loading: Option<bool>,
    fullWidth: Option<bool>,
    iconLeft: bool,
    iconRight: bool,
    onPress: bool)

  /** The props after the defaults are applied. */
  datatype Settings = Settings(
    title: string,
    variant: Variant,
    size: string,
    disabled: bool,
    loading: bool,
    fullWidth: bool,
    iconLeft: bool,
    iconRight: bool,
    onPress: bool)

  /** Omitted props take their defaults: primary, medium, and every flag off. */
  function WithDefaults(p: ButtonProps): (s: Settings)
    ensures p.variant.None? ==> s.variant == Primary
    ensures p.size.None? ==> s.size == "medium"
    ensures p.disabled.None? ==> !s.disabled
    ensures p.loading.None? ==> !s.loading
    ensures p.fullWidth.None? ==> !s.fullWidth
    ensures p.variant.Some? ==> s.variant == p.variant.value
    ensures p.size.Some? ==> s.size == p.size.value
    ensures p.disabled.Some? ==> s.disabled == p.disabled.value
    ensures p.loading.Some? ==> s.loading == p.loading.value
    ensures p.fullWidth.Some? ==> s.fullWidth == p.fullWidth.value
    ensures (s.title, s.iconLeft, s.iconRight, s.onPress) == (p.title, p.iconLeft, p.iconRight, p.onPress)
  {
    Settings(
      p.title,
      p.variant.GetOr(Primary),
      p.size.GetOr("medium"),
      p.disabled.GetOr(false),
      p.loading.GetOr(false),
      p.fullWidth.GetOr(false),
      p.iconLeft, p.iconRight, p.onPress)
  }

  /** The size-dependent part of the style; the line height (font size times 1.4) is not modelled. */
  datatype SizeStyles = SizeStyles(paddingX: Num, paddingY: Num, fontSize: Num, minHeight: int)

  /** `getSizeStyles`: a switch on the size name, with medium as the fallback for any other name. */
  function GetSizeStyles(size: string): SizeStyles {
    if size == "small" then
      SizeStyles(
        ParseInt(Spacing.component.buttonPaddingXSmall), ParseInt(Spacing.component.buttonPaddingYSmall),
        ParseInt(Typography.fontSize.sm), 36)
    else if size == "large" then
      SizeStyles(
        ParseInt(Spacing.component.buttonPaddingXLarge), ParseInt(Spacing.component.buttonPaddingYLarge),
        ParseInt(Typography.fontSize.lg), 56)
    else
      SizeStyles(
        ParseInt(Spacing.component.buttonPaddingX), ParseInt(Spacing.component.buttonPaddingY),
        ParseInt(Typography.fontSize.base), 48)
  }

  /** The opacity of the container: 1, or the reduced 0.6. */
  datatype Opacity = Opaque | Dimmed

  /** The container style, `buttonStyle`. */
  datatype ViewStyle = ViewStyle(
    backgroundColor: Option<Color>,
    borderColor: Option<Color>,
    borderWidth: int,
    borderRadius: string,
    paddingHorizontal: Num,
    paddingVertical: Num,
    minHeight: int,
    flexDirection: string,
    alignItems: string,
    justifyContent: string,
    width: string,
    opacity: Opacity)

  /** The label style, `textStyles`; its line height is not modelled. */
  datatype TextStyle = TextStyle(
    color: Option<Color>,
    fontSize: Num,
    fontWeight: string,
    fontFamily: string,
    textAlign: string)

  /** Whether a variant is drawn with an outline. */
  predicate Outlined(v: Variant) {
    v == Ghost || v == Tertiary
  }

  function ContainerStyle(s: Settings): ViewStyle {
    var theme := ButtonTheme(s.variant);
    var size := GetSizeStyles(s.size);
    ViewStyle(
      if s.disabled then theme.disabled.backgroundColor else Some(theme.backgroundColor),
      if s.disabled then theme.disabled.borderColor else Some(theme.borderColor),
      if s.variant == Ghost || s.variant == Tertiary then 1 else 0,
      borderRadius.md,
      size.paddingX,
      size.paddingY,
      size.minHeight,
      "row", "center", "center",
      if s.fullWidth then "100%" else "auto",
      if s.disabled then Dimmed else Opaque)
  }

  function LabelStyle(s: Settings): TextStyle {
    var theme := ButtonTheme(s.variant);
    TextStyle(
      if s.disabled then theme.disabled.color else Some(theme.color),
      GetSizeStyles(s.size).fontSize,
      Typography.fontWeight.medium,
      Typography.fontFamily.primary,
      "center")
  }

  /** What the pressable shows, in order. */
  datatype Element =
    | Indicator(color: Option<Color>, marginRight: int)
    | LeftIcon(marginRight: int)
    | Label(text: string)
    | RightIcon(marginLeft: int)

  /**
   * The children: an activity indicator while loading, else the left icon if
   * given; then the title unless loading (an empty title is falsy); then the
   * right icon if given, unless loading.
   */
  function Content(s: Settings): seq<Element> {
    (if s.loading then [Indicator(LabelStyle(s).color, if s.title != "" then 8 else 0)]
     else if s.iconLeft then [LeftIcon(8)]
     else []) +
    (if s.title != "" && !s.loading then [Label(s.title)] else []) +
    (if s.iconRight && !s.loading then [RightIcon(8)] else [])
  }

  /** The `disabled` flag handed to the pressable. */
  function TouchableDisabled(s: Settings): bool {
    s.disabled || s.loading
  }

  /** `handlePress`: whether a press calls the caller's handler. */
  function HandlePress(s: Settings): bool {
    !s.disabled && !s.loading && s.onPress
  }

  /** Everything one render produces. */
  datatype Rendered = Rendered(style: ViewStyle, labelStyle: TextStyle, disabled: bool, children: seq<Element>)

  function Render(p: ButtonProps): Rendered {
    var s := WithDefaults(p);
    Rendered(ContainerStyle(s), LabelStyle(s), TouchableDisabled(s), Content(s))
  }

  /** The size table: small, large, and medium for every other name. */
  lemma SizeTable(size: string)
    ensures GetSizeStyles(size) ==
      if size == "small" then SizeStyles(Int(12), Int(8), Int(14), 36)
      else if size == "large" then SizeStyles(Int(24), Int(16), Int(18), 56)
      else SizeStyles(Int(16), Int(12), Int(16), 48)
  {
    Spacing.ButtonPaddingsIncrease();
    Typography.ButtonSizesParse();
  }

  /** Bigger sizes give taller touch targets. */
  lemma MinHeightIncreases()
    ensures GetSizeStyles("small").minHeight < GetSizeStyles("medium").minHeight < GetSizeStyles("large").minHeight
  {
  }

  /** A disabled button takes all three colours from the variant's disabled record. */
  lemma DisabledColors(s: Settings)
    requires s.disabled
    ensures ContainerStyle(s).backgroundColor == ButtonTheme(s.variant).disabled.backgroundColor
    ensures ContainerStyle(s).borderColor == ButtonTheme(s.variant).disabled.borderColor
    ensures LabelStyle(s).color == ButtonTheme(s.variant).disabled.color
  {
  }

  /** An enabled button takes all three colours from the variant's base record, whatever else is set. */
  lemma EnabledColors(s: Settings)
    requires !s.disabled
    ensures ContainerStyle(s).backgroundColor == Some(ButtonTheme(s.variant).backgroundColor)
    ensures ContainerStyle(s).borderColor == Some(ButtonTheme(s.variant).borderColor)
    ensures LabelStyle(s).color == Some(ButtonTheme(s.variant).color)
  {
  }

  /** Loading changes neither style: it only changes what is shown and whether presses get through. */
  lemma LoadingKeepsStyles(s: Settings)
    ensures ContainerStyle(s.(loading := !s.loading)) == ContainerStyle(s)
    ensures LabelStyle(s.(loading := !s.loading)) == LabelStyle(s)
  {
  }

  /** Outlined variants get a border of width 1 and filled ones none; size and state play no part. */
  lemma BorderWidthRule(s: Settings, t: Settings)
    ensures ContainerStyle(s).borderWidth == 1 <==> Outlined(s.variant)
    ensures ContainerStyle(s).borderWidth == 0 <==> !Outlined(s.variant)
    ensures s.variant == t.variant ==> ContainerStyle(s).borderWidth == ContainerStyle(t).borderWidth
  {
  }

  /** Full width fills the parent, otherwise the width is intrinsic; only disabled buttons are dimmed. */
  lemma WidthAndOpacity(s: Settings)
    ensures ContainerStyle(s).width == "100%" <==> s.fullWidth
    ensures ContainerStyle(s).width == "auto" <==> !s.fullWidth
    ensures ContainerStyle(s).opacity == Dimmed <==> s.disabled
  {
  }

  /** Every button has the 6-pixel `md` corner radius and medium-weight Degular label. */
  lemma FixedStyleParts(s: Settings)
    ensures ContainerStyle(s).borderRadius == "6px"
    ensures LabelStyle(s).fontWeight == "500" && LabelStyle(s).fontFamily == "Degular"
  {
  }

  /**
   * A press reaches the handler exactly when one is given and the pressable is
   * enabled; under a disabled or loading button every press is swallowed.
   */
  lemma PressGating(s: Settings)
    ensures HandlePress(s) <==> s.onPress && !TouchableDisabled(s)
    ensures s.disabled || s.loading ==> !HandlePress(s)
  {
  }

  /**
   * While loading only the indicator is shown, in the label's colour, with a
   * right margin of 8 exactly when there is a title.
   */
  lemma LoadingContent(s: Settings)
    requires s.loading
    ensures Content(s) == [Indicator(LabelStyle(s).color, if s.title != "" then 8 else 0)]
  {
  }

  /** Otherwise the left icon, the title and the right icon each appear exactly when given. */
  lemma IdleContent(s: Settings)
    requires !s.loading
    ensures forall e :: e in Content(s) ==> !e.Indicator?
    ensures LeftIcon(8) in Content(s) <==> s.iconLeft
    ensures Label(s.title) in Content(s) <==> s.title != ""
    ensures RightIcon(8) in Content(s) <==> s.iconRight
    ensures |Content(s)| <= 3
  {
    var c := Content(s);
    var a := if s.iconLeft then [LeftIcon(8)] else [];
    var b := if s.title != "" then [Label(s.title)] else [];
    var d := if s.iconRight then [RightIcon(8)] else [];
    assert c == a + b + d;
  }

  /** A small, enabled secondary button is orange with black text, 36 high and unbordered. */
  lemma SecondarySmall()
    ensures var r := Render(ButtonProps("Go", Some(Secondary), Some("small"), None, None, None, false, false, true));
      r.style.backgroundColor == Some("#F6A345") && r.labelStyle.color == Some("#212121") &&
      r.style.minHeight == 36 && r.style.borderWidth == 0 && !r.disabled
  {
    SizeTable("small");
  }

  /**
   * A large, disabled tertiary button shows the tertiary disabled colours (and,
   * that record having none, no border colour), 56 high with a 1-wide border.
   */
  lemma TertiaryLargeDisabled()
    ensures var r := Render(ButtonProps("Go", Some(Tertiary), Some("large"), Some(true), None, None, false, false, true));
      r.style.backgroundColor == Some("transparent") && r.style.borderColor == None &&
      r.labelStyle.color == Some("#BDBDBD") && r.style.minHeight == 56 && r.style.borderWidth == 1 &&
      r.style.opacity == Dimmed && r.disabled
  {
    SizeTable("large");
  }
}
