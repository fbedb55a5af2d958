/**
 * The Pilotbase theme: the per-variant button colour table, built from the
 * colour tokens, and the global radius, z-index and breakpoint scales. The
 * theme also bundles the colour, typography and spacing tokens, which their
 * own modules define.
 */
module Theme {
  import opened Wrappers
  import opened JsNumber
  import opened Scales
  import opened Colors
  import opened Literals
  import Spacing

  /** The closed set of button variants the table has an entry for. */
  datatype Variant = Primary | Secondary | Tertiary | Ghost

  /** A state record (hover, active, disabled): any of its three colours may be left out. */
  datatype StateRecord = StateRecord(backgroundColor: Option<Color>, color: Option<Color>, borderColor: Option<Color>)

  /** One variant's entry: the base colours, all three always present, and the three state records. */
  datatype VariantTheme = VariantTheme(
    backgroundColor: Color,
    color: Color,
    borderColor: Color,
    hover: StateRecord,
    active: StateRecord,
    disabled: StateRecord)

  /** `components.button[v]`. */
  function ButtonTheme(v: Variant): VariantTheme {
    var n := neutral;
    var i := interactive;
    match v
    case Primary =>
      VariantTheme(
        primary.black, primary.white, primary.black,
        StateRecord(Some(i.primary.hover), None, Some(i.primary.hover)),
        StateRecord(Some(i.primary.active), None, Some(i.primary.active)),
        StateRecord(Some(i.primary.disabled), Some(n[500]), Some(i.primary.disabled)))
    case Secondary =>
      VariantTheme(
        secondary.orange.light, primary.black, secondary.orange.light,
        StateRecord(Some(i.secondary.hover), None, Some(i.secondary.hover)),
        StateRecord(Some(i.secondary.active), None, Some(i.secondary.active)),
        StateRecord(Some(i.secondary.disabled), Some(n[500]), Some(i.secondary.disabled)))
    case Tertiary =>
      VariantTheme(
        "transparent", i.tertiary.default, "transparent",
        StateRecord(Some(n[50]), Some(i.tertiary.hover), None),
        StateRecord(Some(n[100]), Some(i.tertiary.active), None),
        StateRecord(Some("transparent"), Some(i.tertiary.disabled), None))
    case Ghost =>
      VariantTheme(
        "transparent", primary.black, n[300],
        StateRecord(Some(n[50]), None, Some(n[400])),
        StateRecord(Some(n[100]), None, Some(n[500])),
        StateRecord(Some("transparent"), Some(n[400]), Some(n[200])))
  }

  /** Corner radii; the keys `2xl` and `3xl` are spelt `xl2` and `xl3`, and `default` is `base`. */
  datatype BorderRadii = BorderRadii(
    none: string, sm: string, base: string, md: string, lg: string,
    xl: string, xl2: string, xl3: string, full: string)

  const borderRadius := BorderRadii("0px", "2px", "4px", "6px", "8px", "12px", "16px", "24px", "9999px")

  datatype ZIndices = ZIndices(
    dropdown: int, sticky: int, fixed: int, modal: int, popover: int, tooltip: int, toast: int)

  const zIndex := ZIndices(1000, 1020, 1030, 1040, 1050, 1060, 1070)

  /** The layers from lowest to highest. */
  function ZIndexScale(): seq<int> {
    [zIndex.dropdown, zIndex.sticky, zIndex.fixed, zIndex.modal, zIndex.popover, zIndex.tooltip, zIndex.toast]
  }

  /** Mobile-first breakpoints; `2xl` is spelt `xl2`. */
  datatype Breakpoints = Breakpoints(sm: string, md: string, lg: string, xl: string, xl2: string)

  const breakpoints := Breakpoints("640px", "768px", "1024px", "1280px", "1536px")

  function BreakpointScale(): seq<string> {
    [breakpoints.sm, breakpoints.md, breakpoints.lg, breakpoints.xl, breakpoints.xl2]
  }

  const BreakpointPx: seq<int> := [640, 768, 1024, 1280, 1536]

  /**
   * Every disabled record has a background and a text colour; all but the
   * tertiary one also have a border colour, which the tertiary one lacks.
   */
  lemma DisabledRecords()
    ensures forall v :: ButtonTheme(v).disabled.backgroundColor.Some? && ButtonTheme(v).disabled.color.Some?
    ensures forall v :: ButtonTheme(v).disabled.borderColor.Some? <==> v != Tertiary
  {
  }

  /** The filled variants draw their border in their background colour, in every state that sets both. */
  lemma FilledBordersMatchBackground(v: Variant)
    requires v == Primary || v == Secondary
    ensures ButtonTheme(v).borderColor == ButtonTheme(v).backgroundColor
    ensures ButtonTheme(v).hover.borderColor == ButtonTheme(v).hover.backgroundColor
    ensures ButtonTheme(v).active.borderColor == ButtonTheme(v).active.backgroundColor
    ensures ButtonTheme(v).disabled.borderColor == ButtonTheme(v).disabled.backgroundColor
  {
  }

  /**
   * Which colours each hover record sets: every one sets a background; only
   * the tertiary one sets a text colour, and it alone sets no border colour.
   */
  lemma HoverRecordShapes()
    ensures forall v :: ButtonTheme(v).hover.backgroundColor.Some?
    ensures forall v :: ButtonTheme(v).hover.color.Some? <==> v == Tertiary
    ensures forall v :: ButtonTheme(v).hover.borderColor.None? <==> v == Tertiary
  {
  }

  /** Concrete colours of two entries: secondary is orange with black text; ghost is outlined in neutral 300. */
  lemma ConcreteEntries()
    ensures ButtonTheme(Secondary).backgroundColor == "#F6A345"
    ensures ButtonTheme(Secondary).color == "#212121"
    ensures ButtonTheme(Ghost).borderColor == neutral[300] == "#E0E0E0"
    ensures ButtonTheme(Primary).disabled == StateRecord(Some("#BDBDBD"), Some("#9E9E9E"), Some("#BDBDBD"))
    ensures ButtonTheme(Tertiary).disabled == StateRecord(Some("transparent"), Some("#BDBDBD"), None)
  {
  }

  /** Buttons use the `md` radius, 6 pixels. */
  lemma ButtonRadius()
    ensures borderRadius.md == Px(Int(6)) && ParseInt(borderRadius.md) == Int(6)
  {
    Px6();
    ParsePx(6);
  }

  /** The z-index layers strictly increase from dropdown to toast. */
  lemma ZIndexIncreases()
    ensures StrictlyIncreasing(ZIndexScale())
  {
    StepsUpIncreasing(ZIndexScale());
  }

  /** Each breakpoint is the pixel string of its value. */
  lemma BreakpointsArePixelStrings()
    ensures forall i :: 0 <= i < |BreakpointPx| ==> BreakpointScale()[i] == Px(Int(BreakpointPx[i]))
  {
    forall i | 0 <= i < |BreakpointPx| ensures BreakpointScale()[i] == Px(Int(BreakpointPx[i])) {
      BreakpointIsPixelString(i);
    }
  }

  lemma BreakpointIsPixelString(i: nat)
    requires i < |BreakpointPx|
    ensures BreakpointScale()[i] == Px(Int(BreakpointPx[i]))
  {
    assert BreakpointScale() == ["640px", "768px", "1024px", "1280px", "1536px"];
    if i == 0 { Px640(); } else if i == 1 { Px768(); } else if i == 2 { Px1024(); }
    else if i == 3 { Px1280(); } else { Px1536(); }
  }

  /** The breakpoints parse to widths that strictly increase from sm to 2xl. */
  lemma BreakpointsIncrease()
    ensures |BreakpointScale()| == |BreakpointPx|
    ensures forall i :: 0 <= i < |BreakpointPx| ==> ParseInt(BreakpointScale()[i]) == Int(BreakpointPx[i])
    ensures StrictlyIncreasing(BreakpointPx)
  {
    BreakpointsArePixelStrings();
    forall i | 0 <= i < |BreakpointPx| ensures ParseInt(BreakpointScale()[i]) == Int(BreakpointPx[i]) {
      ParsePx(BreakpointPx[i]);
    }
    BreakpointPxIncrease();
  }

  lemma BreakpointPxIncrease()
    ensures StrictlyIncreasing(BreakpointPx)
  {
    StepsUpIncreasing(BreakpointPx);
  }

  /** The layout container widths are the breakpoints of the same name. */
  lemma ContainersAreBreakpoints()
    ensures Spacing.layout.containerSm == breakpoints.sm
    ensures Spacing.layout.containerMd == breakpoints.md
    ensures Spacing.layout.containerLg == breakpoints.lg
    ensures Spacing.layout.containerXl == breakpoints.xl
  {
  }
}
