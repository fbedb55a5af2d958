/**
 * The web Button: its props resolve into one CSS property map (pixel values
 * rendered as strings, a cursor, and the caller's `style` spread over all of
 * it), a click gate, a spinner while loading, and mouse handlers that repaint
 * the live element to emulate hover.
 */
module ButtonWeb {
  import opened Wrappers
  import opened JsNumber
  import opened Colors
  import opened Theme
  import opened Literals
  import Button
  import Spacing
  import Typography

  /** A CSS property value as the style object holds it: absent, a string, a number, or the opacity level. */
  datatype CssValue = Undefined | Text(text: string) | Number(num: Num) | Level(level: Button.Opacity)

  /** The props as a caller passes them; an option left out is None. */
  datatype WebProps = WebProps(
    title: string,
    variant: Option<Variant>,
    size: Option<string>,
    disabled: Option<bool>,
    loading: Option<bool>,
    fullWidth: Option<bool>,
    style: map<string, CssValue>,
    onPress: bool)

  datatype WebSettings = WebSettings(
    title: string,
    variant: Variant,
    size: string,
    disabled: bool,
    loading: bool,
    fullWidth: bool,
    style: map<string, CssValue>,
    onPress: bool)

  /** Omitted props take their defaults: primary, medium, and every flag off. */
  function WithDefaults(p: WebProps): (s: WebSettings)
    ensures p.variant.None? ==> s.variant == Primary
    ensures p.size.None? ==> s.size == "medium"
    ensures p.disabled.None? ==> !s.disabled
    ensures p.loading.None? ==> !s.loading
    ensures p.fullWidth.None? ==> !s.fullWidth
    ensures p.variant.Some? ==> s.variant == p.variant.value
    ensures p.size.Some? ==> s.size == p.size.value
    ensures p.disabled.Some? ==> s.disabled == p.disabled.value
    ensures p.loading.Some? ==> s.loading == p.loading.value
    ensures p.fullWidth.Some? ==> s.fullWidth == p.fullWidth.value
    ensures (s.title, s.style, s.onPress) == (p.title, p.style, p.onPress)
  {
    WebSettings(
      p.title,
      p.variant.GetOr(Primary),
      p.size.GetOr("medium"),
      p.disabled.GetOr(false),
      p.loading.GetOr(false),
      p.fullWidth.GetOr(false),
      p.style, p.onPress)
  }

  /** The web `getSizeStyles`: the native table without a line height. */
  function GetSizeStyles(size: string): Button.SizeStyles {
    if size == "small" then
      Button.SizeStyles(
        ParseInt(Spacing.component.buttonPaddingXSmall), ParseInt(Spacing.component.buttonPaddingYSmall),
        ParseInt(Typography.fontSize.sm), 36)
    else if size == "large" then
      Button.SizeStyles(
        ParseInt(Spacing.component.buttonPaddingXLarge), ParseInt(Spacing.component.buttonPaddingYLarge),
        ParseInt(Typography.fontSize.lg), 56)
    else
      Button.SizeStyles(
        ParseInt(Spacing.component.buttonPaddingX), ParseInt(Spacing.component.buttonPaddingY),
        ParseInt(Typography.fontSize.base), 48)
  }

  /** The style the component computes before the caller's `style` is spread over it. */
  datatype WebStyle = WebStyle(
    backgroundColor: Option<Color>,
    borderColor: Option<Color>,
    borderWidth: string,
    borderStyle: string,
    borderRadius: string,
    paddingLeft: Num,
    paddingRight: Num,
    paddingTop: Num,
    paddingBottom: Num,
    minHeight: string,
    display: string,
    alignItems: string,
    justifyContent: string,
    width: string,
    opacity: Button.Opacity,
    cursor: string,
    fontSize: string,
    fontWeight: string,
    fontFamily: string,
    color: Option<Color>,
    textDecoration: string,
    outline: string,
    transition: string,
    gap: string)

  function ComputedStyle(s: WebSettings): WebStyle {
    var theme := ButtonTheme(s.variant);
    var size := GetSizeStyles(s.size);
    WebStyle(
      if s.disabled then theme.disabled.backgroundColor else Some(theme.backgroundColor),
      if s.disabled then theme.disabled.borderColor else Some(theme.borderColor),
      if s.variant == Ghost || s.variant == Tertiary then "1px" else "0",
      "solid",
      borderRadius.md,
      size.paddingX, size.paddingX, size.paddingY, size.paddingY,
      Px(Int(size.minHeight)),
      "flex", "center", "center",
      if s.fullWidth then "100%" else "auto",
      if s.disabled then Button.Dimmed else Button.Opaque,
      if s.disabled || s.loading then "not-allowed" else "pointer",
      Px(size.fontSize),
      Typography.fontWeight.medium,
      Typography.fontFamily.primary,
      if s.disabled then theme.disabled.color else Some(theme.color),
      "none", "none", "all 0.2s ease", "8px")
  }

  /** A colour that may be undefined, as a property value. */
  function ColorValue(c: Option<Color>): CssValue {
    match c
    case Some(x) => Text(x)
    case None => Undefined
  }

  /** The computed style as an object: one key per property. */
  function Properties(w: WebStyle): map<string, CssValue> {
    map[
      "backgroundColor" := ColorValue(w.backgroundColor),
      "borderColor" := ColorValue(w.borderColor),
      "borderWidth" := Text(w.borderWidth),
      "borderStyle" := Text(w.borderStyle),
      "borderRadius" := Text(w.borderRadius),
      "paddingLeft" := Number(w.paddingLeft),
      "paddingRight" := Number(w.paddingRight),
      "paddingTop" := Number(w.paddingTop),
      "paddingBottom" := Number(w.paddingBottom),
      "minHeight" := Text(w.minHeight),
      "display" := Text(w.display),
      "alignItems" := Text(w.alignItems),
      "justifyContent" := Text(w.justifyContent),
      "width" := Text(w.width),
      "opacity" := Level(w.opacity),
      "cursor" := Text(w.cursor),
      "fontSize" := Text(w.fontSize),
      "fontWeight" := Text(w.fontWeight),
      "fontFamily" := Text(w.fontFamily),
      "color" := ColorValue(w.color),
      "textDecoration" := Text(w.textDecoration),
      "outline" := Text(w.outline),
      "transition" := Text(w.transition),
      "gap" := Text(w.gap)]
  }

  /**
   * `buttonStyle`: the computed properties with the caller's `style` spread
   * last, so the caller's keys win and every other computed key survives.
   */
  function ButtonStyle(s: WebSettings): (m: map<string, CssValue>)
    ensures m.Keys == Properties(ComputedStyle(s)).Keys + s.style.Keys
    ensures forall k :: k in s.style ==> m[k] == s.style[k]
    ensures forall k :: k in Properties(ComputedStyle(s)) && k !in s.style ==> m[k] == Properties(ComputedStyle(s))[k]
  {
    Properties(ComputedStyle(s)) + s.style
  }

  /** Reading a key of a style object; a missing key reads as undefined. */
  function Get(m: map<string, CssValue>, k: string): CssValue {
    if k in m then m[k] else Undefined
  }

  /** The button's children: a spinner, topped in the style's text colour, while loading; then the title. */
  datatype WebElement = Spinner(borderTopColor: CssValue) | Title(text: string)

  function Content(s: WebSettings): seq<WebElement> {
    (if s.loading then [Spinner(Get(ButtonStyle(s), "color"))] else []) + [Title(s.title)]
  }

  /** The `disabled` attribute of the `<button>`. */
  function ElementDisabled(s: WebSettings): bool {
    s.disabled || s.loading
  }

  /** `handleClick`: whether a click calls the caller's handler. */
  function HandleClick(s: WebSettings): bool {
    !s.disabled && !s.loading && s.onPress
  }

  /** The two live colours the mouse handlers repaint, as the element's style holds them. */
  datatype Paint = Paint(background: CssValue, text: CssValue)

  /** The value a colour key of the style object takes: the caller's override if there is one, else the computed colour. */
  function StyleColor(s: WebSettings, key: string, computed: Option<Color>): CssValue {
    if key in s.style then s.style[key] else ColorValue(computed)
  }

  /** The background and text colour one render writes into the element's style. */
  function RenderedPaint(s: WebSettings): Paint {
    Paint(StyleColor(s, "backgroundColor", ComputedStyle(s).backgroundColor), StyleColor(s, "color", ComputedStyle(s).color))
  }

  /** The border colour one render writes into the element's style. */
  function RenderedBorder(s: WebSettings): CssValue {
    StyleColor(s, "borderColor", ComputedStyle(s).borderColor)
  }

  /** The colours a variant is drawn with when enabled and not hovered. */
  function BasePaint(v: Variant): Paint {
    Paint(Text(ButtonTheme(v).backgroundColor), Text(ButtonTheme(v).color))
  }

  /** The effect of mouse-enter: the hover background, plus the hover text colour for tertiary. */
  function AfterEnter(v: Variant, disabled: bool, loading: bool, p: Paint): Paint {
    if disabled || loading then p
    else Paint(ColorValue(ButtonTheme(v).hover.backgroundColor),
               if v == Tertiary then ColorValue(ButtonTheme(v).hover.color) else p.text)
  }

  /** The effect of mouse-leave: back to the base colours. */
  function AfterLeave(v: Variant, disabled: bool, loading: bool, p: Paint): Paint {
    if disabled || loading then p else BasePaint(v)
  }

  /**
   * The effect of a re-render from `prev` to `next` on the live colours: React
   * writes a style key only when its value differs from the previous render's,
   * so a colour a handler wrote survives every render that leaves that key's
   * value alone.
   */
  function Reconcile(prev: WebSettings, next: WebSettings, live: Paint): Paint {
    var was, now := RenderedPaint(prev), RenderedPaint(next);
    Paint(if now.background != was.background then now.background else live.background,
          if now.text != was.text then now.text else live.text)
  }

  /**
   * The rendered `<button>` as the mouse handlers see it: the props of the
   * latest render, which the handlers close over, and the element's live colours.
   */
  class ButtonElement {
    var settings: WebSettings
    var backgroundColor: CssValue
    var color: CssValue
    var borderColor: CssValue

    /** The first render: the element takes the colours of `buttonStyle`. */
    constructor (s: WebSettings)
      ensures settings == s
      ensures Paint(backgroundColor, color) == RenderedPaint(s) && borderColor == RenderedBorder(s)
    {
      settings := s;
      var w := ComputedStyle(s);
      backgroundColor := StyleColor(s, "backgroundColor", w.backgroundColor);
      color := StyleColor(s, "color", w.color);
      borderColor := StyleColor(s, "borderColor", w.borderColor);
    }

    /** `handleMouseEnter`; the border colour is never touched. */
    method MouseEnter()
      modifies this`backgroundColor, this`color
      ensures Paint(backgroundColor, color) ==
        AfterEnter(settings.variant, settings.disabled, settings.loading, old(Paint(backgroundColor, color)))
    {
      var s := settings;
      if !s.disabled && !s.loading {
        var theme := ButtonTheme(s.variant);
        if s.variant == Primary {
          backgroundColor := ColorValue(theme.hover.backgroundColor);
        } else if s.variant == Secondary {
          backgroundColor := ColorValue(theme.hover.backgroundColor);
        } else if s.variant == Tertiary {
          color := ColorValue(theme.hover.color);
          backgroundColor := ColorValue(theme.hover.backgroundColor);
        } else if s.variant == Ghost {
          backgroundColor := ColorValue(theme.hover.backgroundColor);
        }
      }
    }

    /**
     * `handleMouseLeave`. Its choice of the disabled text colour can never be
     * taken: the handler only acts when the button is not disabled.
     */
    method MouseLeave()
      modifies this`backgroundColor, this`color
      ensures Paint(backgroundColor, color) ==
        AfterLeave(settings.variant, settings.disabled, settings.loading, old(Paint(backgroundColor, color)))
    {
      var s := settings;
      if !s.disabled && !s.loading {
        var theme := ButtonTheme(s.variant);
        backgroundColor := Text(theme.backgroundColor);
        color := if s.disabled then ColorValue(theme.disabled.color) else Text(theme.color);
      }
    }

    /** A re-render with new props: each colour key is written only when its rendered value changed. */
    method Rerender(next: WebSettings)
      modifies this
      ensures settings == next
      ensures Paint(backgroundColor, color) == Reconcile(old(settings), next, old(Paint(backgroundColor, color)))
      ensures borderColor == if RenderedBorder(next) != RenderedBorder(old(settings)) then RenderedBorder(next) else old(borderColor)
    {
      var was, now := RenderedPaint(settings), RenderedPaint(next);
      if now.background != was.background {
        backgroundColor := now.background;
      }
      if now.text != was.text {
        color := now.text;
      }
      var wasBorder, nowBorder := RenderedBorder(settings), RenderedBorder(next);
      if nowBorder != wasBorder {
        borderColor := nowBorder;
      }
      settings := next;
    }
  }

  /** A pointer passing over an enabled button leaves it in its base colours, border untouched. */
  method HoverAndLeave(e: ButtonElement)
    requires !e.settings.disabled && !e.settings.loading
    modifies e`backgroundColor, e`color
    ensures Paint(e.backgroundColor, e.color) == BasePaint(e.settings.variant)
    ensures e.borderColor == old(e.borderColor)
  {
    e.MouseEnter();
    e.MouseLeave();
  }

  /**
   * An enabled button is hovered, starts loading, the pointer leaves, and
   * loading ends: the element keeps the hover background throughout, since
   * the leave handler skips a loading button and no render changes the
   * background's value. Unless the caller fixes the background, that is not
   * the background the button is rendered with.
   */
  method HoverStuckThroughLoading(idle: WebSettings) returns (whileLoading: CssValue, afterLoading: CssValue)
    requires !idle.disabled && !idle.loading
    ensures whileLoading == afterLoading == ColorValue(ButtonTheme(idle.variant).hover.backgroundColor)
    ensures "backgroundColor" !in idle.style ==> afterLoading != RenderedPaint(idle).background
  {
    var busy := idle.(loading := true);
    var e := new ButtonElement(idle);
    e.MouseEnter();
    LoadingKeepsRenderedPaint(idle, Paint(e.backgroundColor, e.color));
    e.Rerender(busy);
    e.MouseLeave();
    whileLoading := e.backgroundColor;
    LoadingKeepsRenderedPaint(busy, Paint(e.backgroundColor, e.color));
    assert busy.(loading := !busy.loading) == idle;
    e.Rerender(idle);
    afterLoading := e.backgroundColor;
    HoverDiffersFromBase(idle.variant);
  }

  /** The web size table is the native one. */
  lemma SizeTablesAgree(size: string)
    ensures GetSizeStyles(size) == Button.GetSizeStyles(size)
  {
  }

  /** Minimum height and font size are rendered as pixel strings. */
  lemma PixelRendering(s: WebSettings)
    ensures ComputedStyle(s).minHeight ==
      if s.size == "small" then "36px" else if s.size == "large" then "56px" else "48px"
    ensures ComputedStyle(s).fontSize ==
      if s.size == "small" then "14px" else if s.size == "large" then "18px" else "16px"
  {
    SizeTablesAgree(s.size);
    Button.SizeTable(s.size);
    Px36(); Px48(); Px56();
    Px14(); Px16(); Px18();
  }

  /** The rendered minimum height and font size read back, with `parseInt`, as the size table's numbers. */
  lemma PixelRoundTrip(s: WebSettings)
    ensures ParseInt(ComputedStyle(s).minHeight) == Int(GetSizeStyles(s.size).minHeight)
    ensures ParseInt(ComputedStyle(s).fontSize) == GetSizeStyles(s.size).fontSize
  {
    var z := GetSizeStyles(s.size);
    SizeTablesAgree(s.size);
    Button.SizeTable(s.size);
    assert z.fontSize.Int?;
    ParsePx(z.minHeight);
    ParsePx(z.fontSize.value);
  }

  /** Outlined variants get a `1px` border and filled ones `0`, whatever the size or state. */
  lemma BorderWidthRule(s: WebSettings)
    ensures ComputedStyle(s).borderWidth == "1px" <==> Button.Outlined(s.variant)
    ensures ComputedStyle(s).borderWidth == "0" <==> !Button.Outlined(s.variant)
  {
  }

  /** The colours come from the disabled record exactly when disabled; loading plays no part. */
  lemma ColorSelection(s: WebSettings)
    ensures s.disabled ==> ComputedStyle(s).backgroundColor == ButtonTheme(s.variant).disabled.backgroundColor &&
                           ComputedStyle(s).borderColor == ButtonTheme(s.variant).disabled.borderColor &&
                           ComputedStyle(s).color == ButtonTheme(s.variant).disabled.color
    ensures !s.disabled ==> ComputedStyle(s).backgroundColor == Some(ButtonTheme(s.variant).backgroundColor) &&
                            ComputedStyle(s).borderColor == Some(ButtonTheme(s.variant).borderColor) &&
                            ComputedStyle(s).color == Some(ButtonTheme(s.variant).color)
    ensures var t := s.(loading := !s.loading);
      (ComputedStyle(t).backgroundColor, ComputedStyle(t).borderColor, ComputedStyle(t).color) ==
      (ComputedStyle(s).backgroundColor, ComputedStyle(s).borderColor, ComputedStyle(s).color)
  {
  }

  /** The cursor shows `not-allowed` exactly when the button is disabled or loading. */
  lemma CursorRule(s: WebSettings)
    ensures ComputedStyle(s).cursor == "not-allowed" <==> s.disabled || s.loading
    ensures ComputedStyle(s).cursor == "pointer" <==> !s.disabled && !s.loading
  {
  }

  /** A click reaches the handler exactly when one is given and the element is enabled. */
  lemma ClickGating(s: WebSettings)
    ensures HandleClick(s) <==> s.onPress && !ElementDisabled(s)
  {
  }

  /** The colour keys of the computed properties hold the computed colours. */
  lemma ColorKeys(w: WebStyle)
    ensures "backgroundColor" in Properties(w) && Properties(w)["backgroundColor"] == ColorValue(w.backgroundColor)
    ensures "color" in Properties(w) && Properties(w)["color"] == ColorValue(w.color)
    ensures "borderColor" in Properties(w) && Properties(w)["borderColor"] == ColorValue(w.borderColor)
  {
  }

  /** The text colour property reads the caller's override if it gives one, else the resolved colour. */
  lemma ColorProperty(s: WebSettings)
    ensures Get(ButtonStyle(s), "color") ==
      if "color" in s.style then s.style["color"] else ColorValue(ComputedStyle(s).color)
  {
    ColorKeys(ComputedStyle(s));
  }

  /**
   * While loading, both the spinner and the title are shown, the spinner
   * topped in the text colour; otherwise only the title.
   */
  lemma LoadingContent(s: WebSettings)
    ensures s.loading ==> Content(s) == [Spinner(Get(ButtonStyle(s), "color")), Title(s.title)]
    ensures s.loading && "color" !in s.style ==> Content(s)[0] == Spinner(ColorValue(ComputedStyle(s).color))
    ensures !s.loading ==> Content(s) == [Title(s.title)]
  {
    ColorProperty(s);
  }

  /** Enter then leave on an enabled button restores the base colours, from any starting colours. */
  lemma EnterThenLeave(v: Variant, p: Paint)
    ensures AfterLeave(v, false, false, AfterEnter(v, false, false, p)) == BasePaint(v)
  {
  }

  /** On a disabled or loading button neither handler changes anything. */
  lemma InertWhenBlocked(v: Variant, disabled: bool, loading: bool, p: Paint)
    requires disabled || loading
    ensures AfterEnter(v, disabled, loading, p) == p && AfterLeave(v, disabled, loading, p) == p
  {
  }

  /** Which colours hover changes: always the background, the text colour only for tertiary. */
  lemma HoverChanges(v: Variant, p: Paint)
    ensures AfterEnter(v, false, false, p).background == ColorValue(ButtonTheme(v).hover.backgroundColor)
    ensures AfterEnter(v, false, false, p).background.Text?
    ensures v != Tertiary ==> AfterEnter(v, false, false, p).text == p.text
    ensures v == Tertiary ==> AfterEnter(v, false, false, p).text == Text(interactive.tertiary.hover)
  {
  }

  /** The rendered colours are the values of the colour keys of `buttonStyle`. */
  lemma RenderedFromStyle(s: WebSettings)
    ensures RenderedPaint(s) == Paint(Get(ButtonStyle(s), "backgroundColor"), Get(ButtonStyle(s), "color"))
    ensures RenderedBorder(s) == Get(ButtonStyle(s), "borderColor")
  {
    ColorKeys(ComputedStyle(s));
  }

  /**
   * With no override of the two colours, an enabled button is rendered in its
   * base colours, which are therefore what mouse-leave restores.
   */
  lemma LeaveRestoresRendered(s: WebSettings)
    requires !s.disabled
    requires "backgroundColor" !in s.style && "color" !in s.style
    ensures RenderedPaint(s) == BasePaint(s.variant)
    ensures Get(ButtonStyle(s), "backgroundColor") == BasePaint(s.variant).background
    ensures Get(ButtonStyle(s), "color") == BasePaint(s.variant).text
  {
    RenderedFromStyle(s);
  }

  /** Loading never changes the rendered colours, so a render that only toggles it writes no colour. */
  lemma LoadingKeepsRenderedPaint(s: WebSettings, p: Paint)
    ensures RenderedPaint(s.(loading := !s.loading)) == RenderedPaint(s)
    ensures RenderedBorder(s.(loading := !s.loading)) == RenderedBorder(s)
    ensures Reconcile(s, s.(loading := !s.loading), p) == p
  {
  }

  /** A render with unchanged props writes nothing: whatever a handler painted stays. */
  lemma SameRenderKeepsPaint(s: WebSettings, p: Paint)
    ensures Reconcile(s, s, p) == p
  {
  }

  /** If no handler has painted since the last render, a re-render shows exactly the new render's colours. */
  lemma ReconcileFromRendered(prev: WebSettings, next: WebSettings)
    ensures Reconcile(prev, next, RenderedPaint(prev)) == RenderedPaint(next)
  {
  }

  /** Every variant's hover background differs from its base background. */
  lemma HoverDiffersFromBase(v: Variant)
    ensures ColorValue(ButtonTheme(v).hover.backgroundColor) != BasePaint(v).background
  {
  }

  /**
   * The stuck hover colour on values: after hover, a leave while loading
   * keeps the primary hover background `#424242`.
   */
  lemma LeaveWhileLoadingKeepsHover()
    ensures AfterLeave(Primary, false, true, AfterEnter(Primary, false, false, BasePaint(Primary))).background == Text("#424242")
  {
  }
}
