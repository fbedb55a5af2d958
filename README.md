# Pilotbase Button: style resolution, interaction rules and design tokens

This project models the Button component of the Pilotbase design system and
the constant tables it reads. It proves properties of that model.

- **Native Button** (`Button.tsx`). The props, with their defaults, are
  resolved through the theme into:
  - a container style and a label style;
  - the touchable's disabled flag;
  - the children: activity indicator, left icon, title, right icon.

  A press reaches the caller's handler only when the button is enabled and
  not loading.
- **Web Button** (`Button.web.tsx`). The same props are resolved into one CSS
  property map, with these differences:
  - minimum height and font size are rendered as `"<n>px"` strings;
  - there is a cursor rule;
  - the caller's `style` is spread last, so its keys win.

  While loading, a spinner is drawn, and the title is shown next to it. The
  mouse handlers repaint the live element's background and text colour to
  emulate hover. They are modelled as the methods of a class whose fields
  are the props of the latest render and the element's live colours. The
  first render writes the colours of `buttonStyle`. A later render writes a
  colour only when its value differs from the previous render's, which is
  how React updates an inline style.

  As written, a hover colour can outlive the hover. Take an enabled button:
  the pointer enters, the button starts loading, and the pointer leaves.
  The leave handler does nothing while loading, and no render changes the
  background's value. So the element keeps its hover background while
  loading and after loading ends (`ButtonWeb.HoverStuckThroughLoading`).
- **Theme** (`pilotbase.ts`):
  - the per-variant button table, with base colours and hover, active and
    disabled records;
  - the corner radii, the z-index layers and the breakpoints.
- **Tokens**: colours (`colors.ts`), spacing (`spacing.ts`) and typography
  (`typography.ts`).

How the model represents the source:

- The size table reads `"NNpx"` strings with JavaScript `parseInt`. That
  function is modelled as ECMAScript defines it:
  - leading white space is skipped;
  - an optional sign is read;
  - a `0x`/`0X` prefix switches to radix 16;
  - the longest digit run is read, and NaN is the result when that run is
    empty.

  A JavaScript number is `Num = NaN | Int(value)`. Only integers arise here.
  The template literal `${n}px` is `Px(n)`.
- Nested object literals with fixed keys become records. A token key that
  starts with a digit (`2xl`) is spelt with the digit last (`xl2`). The
  `default` radius is spelt `base`.
- The neutral colour scale and the spacing base scale are keyed by numbers.
  They are maps.
- Theme state records may leave a colour out, so their colours are `Option`s.

The module layout follows the source files:

| module | file | models |
|---|---|---|
| `JsNumber` | `js_number.dfy` | `parseInt`, number-to-string, `${n}px` |
| `Literals` | `literals.dfy` | the renderings of the specific numbers the tokens use, one per lemma |
| `Scales` | `scales.dfy` | monotonicity of scales |
| `Colors` | `colors.dfy` | `src/tokens/colors.ts` |
| `Spacing` | `spacing.dfy` | `src/tokens/spacing.ts` |
| `Typography` | `typography.dfy` | `src/tokens/typography.ts` |
| `Theme` | `pilotbase.dfy` | `src/themes/pilotbase.ts` |
| `Button` | `button.dfy` | `src/components/Button/Button.tsx` |
| `ButtonWeb` | `button_web.dfy` | `src/components/Button/Button.web.tsx` |

The native and web buttons are modelled as each is written, not reconciled:

- **While loading.** The native button hides the title and the right icon
  (`Button.tsx:123,129`). The web button still shows the title
  (`Button.web.tsx:132`).
- **Empty title.** The native button drops a falsy (empty) title. The web
  button always emits `{title}`, so its `Content` always ends with
  `Title(title)`.
- **Closed by the type system.** The variant set is closed, and each variant
  has all four records. Each interactive colour role has all four states.
  Both hold by construction: `ButtonTheme` is a total function over the
  variant datatype, and the records have no optional members.

## Model

| member | source | states |
|---|---|---|
| `JsNumber.DigitValue` | src/components/Button/Button.tsx:143-145 | the value of a digit character is at most 36, and below 10 exactly for `0`-`9` |
| `JsNumber.TrimStart` | src/components/Button/Button.tsx:143-145 | `parseInt`'s trimming: the result is a suffix, does not start with white space, and only white space was dropped |
| `JsNumber.DigitRun` | src/components/Button/Button.tsx:143-145 | the digit run `parseInt` reads is made of digits of the radix and is maximal: the next character is not one |
| `JsNumber.ParseUnsigned` | src/components/Button/Button.tsx:143-145 | the unsigned part of `parseInt` (hex prefix, digit run, NaN on no digits) never yields a negative number |
| `JsNumber.DigitChar` | src/components/Button/Button.web.tsx:65 | the decimal digit printed for `d` reads back as `d` |
| `JsNumber.NatToString` | src/components/Button/Button.web.tsx:65 | the decimal rendering of a number is non-empty, all digits, and has a leading zero only for 0, which prints as `"0"` |
| `JsNumber.DigitsValueOfNatToString` | src/components/Button/Button.web.tsx:65 | the digits printed for `n` denote `n` |
| `JsNumber.DigitRunOfPrefix` | src/components/Button/Button.tsx:143-145 | a digit string followed by a non-digit is read exactly up to its end |
| `JsNumber.ParseUnsignedOfPrinted` | src/components/Button/Button.tsx:143-145 | the printed digits of `m`, followed by a suffix that does not extend them, parse back to `m` |
| `JsNumber.ParseIntNoTrim` | src/components/Button/Button.tsx:143-145 | a string starting with `-` or a digit is parsed without trimming, and `-` negates |
| `JsNumber.ParseIntOfPrinted` | src/components/Button/Button.tsx:143-145 | `parseInt` of a printed integer followed by a non-digit suffix gives that integer, negatives included; JavaScript agrees for integers below 2^53 in magnitude |
| `JsNumber.ParseIntMinus` | src/components/Button/Button.tsx:143-145 | `parseInt` of `-` followed by a string is the negation of that string's unsigned reading |
| `JsNumber.ParseNegativeOfPrinted` | src/components/Button/Button.tsx:143-145 | a printed negative integer followed by a non-digit suffix parses back to it |
| `JsNumber.ParseNonNegativeOfPrinted` | src/components/Button/Button.tsx:143-145 | a printed non-negative integer followed by a suffix that is neither a digit nor, after 0, an `x`, parses back to it |
| `JsNumber.ParseDecimal` | src/tokens/typography.ts:18-24 | `parseInt` of the decimal rendering of an integer gives that integer; JavaScript agrees for integers below 2^53 in magnitude |
| `JsNumber.ParsePx` | src/components/Button/Button.web.tsx:65 | `parseInt` of `${i}px` is `i`: rendering and parsing are inverse on the model's integers, and in JavaScript for integers below 2^53 in magnitude |
| `JsNumber.ParseNaNPx` | src/components/Button/Button.web.tsx:72 | `${NaN}px` is `"NaNpx"`, which parses to NaN |
| `JsNumber.ParseNaNText` | src/components/Button/Button.tsx:143-145 | `parseInt("NaNpx")` is NaN: the string starts with no digit |
| `Scales.StepsUpIncreasing` | src/themes/pilotbase.ts:155-163 | a scale that rises at every adjacent step is strictly increasing |
| `Scales.StepsDownDecreasing` | src/tokens/colors.ts:45-56 | a scale that falls at every adjacent step is strictly decreasing |
| `Colors.Channel` | src/tokens/colors.ts:45-56 | a channel of a hex colour is a byte, below 256 |
| `Colors.NeutralColors` | src/tokens/colors.ts:45-56 | the neutral list holds, in order, the value of every neutral key |
| `Colors.NeutralKeys` | src/tokens/colors.ts:45-56 | the neutral scale has exactly the keys 50, 100, ..., 900 |
| `Colors.LightNeutralValues` | src/tokens/colors.ts:46-50 | neutrals 50 to 400 are `#FAFAFA`, `#F5F5F5`, `#EEEEEE`, `#E0E0E0` and `#BDBDBD` |
| `Colors.DarkNeutralValues` | src/tokens/colors.ts:51-55 | neutrals 500 to 900 are `#9E9E9E`, `#757575`, `#616161`, `#424242` and `#212121` |
| `Colors.AllHex` | src/tokens/colors.ts:11-78 | the element-by-element hex check holds exactly when every colour of the list is a hex colour |
| `Colors.AllHexAppend` | src/tokens/colors.ts:11-78 | the hex check of two lists carries over to their concatenation |
| `Colors.PrimaryAndOrangeAreHex` | src/tokens/colors.ts:11-22 | the primary and orange colours are `#` and six hex digits |
| `Colors.AccentAndSemanticAreHex` | src/tokens/colors.ts:26-42 | the electric, tertiary and semantic colours are `#` and six hex digits |
| `Colors.AccentsAreHex` | src/tokens/colors.ts:11-42 | every primary, orange, electric, tertiary and semantic colour is `#` and six hex digits |
| `Colors.LightNeutralsAreHex` | src/tokens/colors.ts:46-50 | neutrals 50 to 400 are `#` and six hex digits |
| `Colors.DarkNeutralsAreHex` | src/tokens/colors.ts:51-55 | neutrals 500 to 900 are `#` and six hex digits |
| `Colors.NeutralsAreHex` | src/tokens/colors.ts:45-56 | every neutral is `#` and six hex digits |
| `Colors.TertiaryRoleIsHex` | src/tokens/colors.ts:72-77 | the four tertiary interactive state colours are `#` and six hex digits |
| `Colors.InteractiveAreHex` | src/tokens/colors.ts:59-78 | every interactive state colour is `#` and six hex digits |
| `Colors.EveryColorIsHex` | src/tokens/colors.ts:11-78 | every colour value of the table is `#` followed by six hex digits |
| `Colors.NeutralDarkestIsBlack` | src/tokens/colors.ts:12-55 | neutral 900 is the primary black, `#212121` |
| `Colors.GreyByDigits` | src/tokens/colors.ts:45-56 | a hex colour whose three digit pairs are the same characters has three equal channels |
| `Colors.GreysByDigits` | src/tokens/colors.ts:45-56 | every colour of a list whose three digit pairs agree has three equal channels |
| `Colors.LightNeutralsAreGrey` | src/tokens/colors.ts:46-50 | neutrals 50 to 400 each have three equal channels |
| `Colors.DarkNeutralsAreGrey` | src/tokens/colors.ts:51-55 | neutrals 500 to 900 each have three equal channels |
| `Colors.NeutralsAreGrey` | src/tokens/colors.ts:45-56 | every neutral, 50 to 900, has three equal channels: it is a true grey |
| `Colors.LightLevels` | src/tokens/colors.ts:46-50 | neutrals 50 to 400 are hex colours at levels FA, F5, EE, E0 and BD |
| `Colors.LightLevel` | src/tokens/colors.ts:46-50 | neutral shade i, for i below 5, is a hex colour at the i-th level |
| `Colors.DarkLevels` | src/tokens/colors.ts:51-55 | neutrals 500 to 900 are hex colours at levels 9E, 75, 61, 42 and 21 |
| `Colors.DarkLevel` | src/tokens/colors.ts:51-55 | neutral shade 5 + i is a hex colour at the (5 + i)-th level |
| `Colors.LevelsDecrease` | src/tokens/colors.ts:46-55 | the neutral levels strictly decrease |
| `Colors.NeutralsDarken` | src/tokens/colors.ts:46-55 | neutral shade i is a hex colour whose red channel is the i-th level, FA, F5, EE, E0, BD, 9E, 75, 61, 42, 21, and the levels strictly decrease from 50 to 900 |
| `Colors.InteractiveDefaults` | src/tokens/colors.ts:61-73 | the interactive defaults are primary black, light orange and denim |
| `Colors.SemanticAliases` | src/tokens/colors.ts:38-41 | success, warning, error and info are light, medium and dark orange, and electric blue |
| `Colors.InteractiveStateAliases` | src/tokens/colors.ts:62-70 | secondary hover and active are medium and dark orange; primary hover, active and disabled are neutral 800, 700 and 400 |
| `Spacing.ScaleKeysComplete` | src/tokens/spacing.ts:10-28 | the base scale has exactly the keys 0-8, 10, 12, 16, 20, 24, 32, 40, 48, 56 and 64 |
| `Spacing.ScaleEntryLow` | src/tokens/spacing.ts:10-18 | base entries up to 8 are `${4k}px` |
| `Spacing.ScaleEntryMiddle` | src/tokens/spacing.ts:19-23 | base entries 10 to 24 are `${4k}px` |
| `Spacing.ScaleEntryHigh` | src/tokens/spacing.ts:24-28 | base entries 32 to 64 are `${4k}px` |
| `Spacing.ScaleIsFourTimesKey` | src/tokens/spacing.ts:10-28 | every base entry `k` is `${4k}px` and parses to `4k` |
| `Spacing.AliasesAreScaleEntries` | src/tokens/spacing.ts:31-37 | xs, sm, md, lg, xl, 2xl and 3xl are base entries 1, 2, 4, 6, 8, 12 and 16 |
| `Spacing.ButtonPaddings` | src/tokens/spacing.ts:42-47 | every button padding is a `"<digits>px"` string of its number |
| `Spacing.ButtonPaddingsIncrease` | src/tokens/spacing.ts:42-47 | the paddings parse to 12/16/24 (horizontal) and 8/12/16 (vertical), strictly increasing from small to large |
| `Typography.SizeIsPixelString` | src/tokens/typography.ts:28-37 | font size i is the pixel string of the i-th size value |
| `Typography.SizesArePixelStrings` | src/tokens/typography.ts:27-38 | each font size is the pixel string of 12, 14, 16, 18, 20, 24, 30, 36, 48 or 64 |
| `Typography.FontSizesIncrease` | src/tokens/typography.ts:28-37 | the font sizes parse to sizes strictly increasing from xs to 6xl |
| `Typography.SizePxIncrease` | src/tokens/typography.ts:28-37 | the font size values strictly increase |
| `Typography.ButtonSizesParse` | src/tokens/typography.ts:29-31 | the sm, base and lg sizes parse to 14, 16 and 18 |
| `Typography.WeightIsDecimal` | src/tokens/typography.ts:19-23 | weight i is the decimal rendering of the i-th of 400, 500, 600, 700 and 900 |
| `Typography.WeightsAreDecimals` | src/tokens/typography.ts:18-24 | every weight is the decimal rendering of its value |
| `Typography.WeightNames` | src/tokens/typography.ts:18-24 | the weights are exactly `400`, `500`, `600`, `700` and `900` |
| `Typography.WeightsAvoidThin` | src/tokens/typography.ts:18-24 | every weight parses to its value, 400, 500, 600, 700 or 900, and every value is at least 400: there is no thin or light weight |
| `Typography.TextStylesUseScales` | src/tokens/typography.ts:58-145 | every text style's size, weight, line height and letter spacing is a member of its scale |
| `Typography.TextStyleFamilies` | src/tokens/typography.ts:60-144 | the mono styles, and only they, use `Degular Mono` with an uppercase transform; the rest use `Degular` with none |
| `Typography.HeadingOneStyle` | src/tokens/typography.ts:35-66 | h1 is the 4xl size, bold, tight line height and tight letter spacing |
| `Typography.ButtonTextStyle` | src/tokens/typography.ts:113-119 | the button text style is the base size at medium weight |
| `Theme.DisabledRecords` | src/themes/pilotbase.ts:33-90 | every variant's disabled record has a background and a text colour; it has a border colour exactly when the variant is not tertiary |
| `Theme.FilledBordersMatchBackground` | src/themes/pilotbase.ts:21-56 | primary and secondary draw their border in their background colour in the base record and in the hover, active and disabled records |
| `Theme.HoverRecordShapes` | src/themes/pilotbase.ts:25-81 | every hover record sets a background; only tertiary's sets a text colour, and only tertiary's lacks a border colour |
| `Theme.ConcreteEntries` | src/themes/pilotbase.ts:33-77 | secondary is `#F6A345` with `#212121` text; ghost's border is neutral 300; the primary and tertiary disabled records have their exact colours |
| `Theme.ButtonRadius` | src/themes/pilotbase.ts:170 | the `md` radius is `6px`, which parses to 6 |
| `Theme.ZIndexIncreases` | src/themes/pilotbase.ts:155-163 | the z-index layers strictly increase from dropdown to toast |
| `Theme.BreakpointIsPixelString` | src/themes/pilotbase.ts:146-152 | breakpoint i is the pixel string of the i-th width |
| `Theme.BreakpointsArePixelStrings` | src/themes/pilotbase.ts:146-152 | each breakpoint is the pixel string of 640, 768, 1024, 1280 or 1536 |
| `Theme.BreakpointPxIncrease` | src/themes/pilotbase.ts:146-152 | the breakpoint widths strictly increase |
| `Theme.BreakpointsIncrease` | src/themes/pilotbase.ts:146-152 | the breakpoints parse to widths strictly increasing from sm to 2xl |
| `Theme.ContainersAreBreakpoints` | src/tokens/spacing.ts:69-72 | the container widths sm to xl are the breakpoints of the same name |
| `Button.WithDefaults` | src/components/Button/Button.tsx:50-63 | omitted props become primary, medium and false; given props are kept |
| `Button.SizeTable` | src/components/Button/Button.tsx:139-167 | small is (12, 8, 14, 36), large is (24, 16, 18, 56), and medium and any other name is (16, 12, 16, 48) |
| `Button.MinHeightIncreases` | src/components/Button/Button.tsx:147-164 | the minimum height strictly increases from small to medium to large |
| `Button.DisabledColors` | src/components/Button/Button.tsx:74-89 | a disabled button takes background, border and text colour from the disabled record |
| `Button.EnabledColors` | src/components/Button/Button.tsx:74-89 | an enabled button takes all three colours from the base record |
| `Button.LoadingKeepsStyles` | src/components/Button/Button.tsx:73-95 | neither style depends on the loading flag |
| `Button.BorderWidthRule` | src/components/Button/Button.tsx:76 | the border width is 1 exactly for ghost and tertiary and 0 otherwise, whatever the size or state |
| `Button.WidthAndOpacity` | src/components/Button/Button.tsx:84-85 | the width is `100%` exactly when full width, else `auto`; the container is dimmed exactly when disabled |
| `Button.FixedStyleParts` | src/components/Button/Button.tsx:77-92 | every button has a `6px` radius and a medium-weight `Degular` label |
| `Button.PressGating` | src/components/Button/Button.tsx:97-107 | a press calls the handler exactly when one is given and the touchable is enabled, that is, neither disabled nor loading |
| `Button.LoadingContent` | src/components/Button/Button.tsx:111-133 | while loading, only an indicator in the label's colour is shown, with a right margin of 8 exactly when the title is non-empty |
| `Button.IdleContent` | src/components/Button/Button.tsx:111-133 | when not loading, there is no indicator, and the left icon, title and right icon each appear exactly when given |
| `Button.SecondarySmall` | src/components/Button/Button.tsx:50-148 | a small enabled secondary button renders `#F6A345` with `#212121` text, 36 high, with border width 0, and its touchable enabled |
| `Button.TertiaryLargeDisabled` | src/components/Button/Button.tsx:50-156 | a large disabled tertiary button renders a transparent background, `#BDBDBD` text and no border colour, 56 high with border width 1, dimmed, with its touchable disabled |
| `ButtonWeb.WithDefaults` | src/components/Button/Button.web.tsx:35-45 | omitted props become primary, medium and false; given props and the caller's style are kept |
| `ButtonWeb.ButtonStyle` | src/components/Button/Button.web.tsx:55-81 | the style has the computed keys plus the caller's; a caller key wins, and every other computed key keeps its value |
| `ButtonWeb.SizeTablesAgree` | src/components/Button/Button.web.tsx:146-171 | the web size table equals the native one for every size name |
| `ButtonWeb.PixelRendering` | src/components/Button/Button.web.tsx:65-72 | minimum height and font size are `36px`/`14px` small, `56px`/`18px` large, `48px`/`16px` otherwise |
| `ButtonWeb.PixelRoundTrip` | src/components/Button/Button.web.tsx:65-171 | the rendered minimum height and font size parse back to the size table's numbers |
| `ButtonWeb.BorderWidthRule` | src/components/Button/Button.web.tsx:58 | the border width is `1px` exactly for outlined variants and `0` exactly for filled ones |
| `ButtonWeb.ColorSelection` | src/components/Button/Button.web.tsx:56-75 | background, border and text colour come from the disabled record exactly when disabled, else from the base record; loading changes none of them |
| `ButtonWeb.CursorRule` | src/components/Button/Button.web.tsx:71 | the cursor is `not-allowed` exactly when disabled or loading, and `pointer` exactly otherwise |
| `ButtonWeb.ClickGating` | src/components/Button/Button.web.tsx:83-119 | a click calls the handler exactly when one is given and the element is enabled |
| `ButtonWeb.ColorKeys` | src/components/Button/Button.web.tsx:56-75 | the computed property map holds the computed background, border and text colours under their keys |
| `ButtonWeb.ColorProperty` | src/components/Button/Button.web.tsx:75-80 | the composed text colour is the caller's override if given, else the resolved colour |
| `ButtonWeb.LoadingContent` | src/components/Button/Button.web.tsx:122-132 | while loading, a spinner topped in the composed text colour precedes the title, which is still shown; otherwise only the title |
| `ButtonWeb.RenderedFromStyle` | src/components/Button/Button.web.tsx:55-81 | the colours a render writes are the values of the `backgroundColor`, `color` and `borderColor` keys of `buttonStyle`, caller overrides included |
| `ButtonWeb.ButtonElement.constructor` | src/components/Button/Button.web.tsx:113-115 | the first render holds the given props and writes `buttonStyle`'s background, text and border colours |
| `ButtonWeb.ButtonElement.MouseEnter` | src/components/Button/Button.web.tsx:89-103 | the two live colours become `AfterEnter` of the old ones: unchanged when disabled or loading, else the hover background, plus for tertiary the hover text colour |
| `ButtonWeb.ButtonElement.MouseLeave` | src/components/Button/Button.web.tsx:105-111 | the two live colours become `AfterLeave` of the old ones: unchanged when disabled or loading, else the base background and text colour |
| `ButtonWeb.ButtonElement.Rerender` | src/components/Button/Button.web.tsx:55-115 | after a render with new props, the element holds them; each live colour takes the new render's value if that value changed, and keeps its live value otherwise |
| `ButtonWeb.HoverAndLeave` | src/components/Button/Button.web.tsx:89-111 | on an enabled button, enter then leave ends in the base colours, with the border colour untouched |
| `ButtonWeb.EnterThenLeave` | src/components/Button/Button.web.tsx:89-111 | from any colours, enter followed by leave returns an enabled button to its base colours |
| `ButtonWeb.InertWhenBlocked` | src/components/Button/Button.web.tsx:90-106 | on a disabled or loading button, neither handler changes anything |
| `ButtonWeb.HoverChanges` | src/components/Button/Button.web.tsx:92-101 | hover always sets a background, the variant's hover background, and changes the text colour only for tertiary, to the interactive tertiary hover |
| `ButtonWeb.LeaveRestoresRendered` | src/components/Button/Button.web.tsx:56-109 | with the two colours not overridden, an enabled button is rendered in exactly the base colours that mouse-leave restores |
| `ButtonWeb.LoadingKeepsRenderedPaint` | src/components/Button/Button.web.tsx:56-75 | toggling `loading` changes none of the rendered colours, so that render writes no colour and the live colours stay |
| `ButtonWeb.SameRenderKeepsPaint` | src/components/Button/Button.web.tsx:55-115 | a render with unchanged props leaves whatever a handler painted |
| `ButtonWeb.ReconcileFromRendered` | src/components/Button/Button.web.tsx:55-115 | when nothing was painted since the last render, a re-render shows exactly the new render's colours |
| `ButtonWeb.HoverDiffersFromBase` | src/themes/pilotbase.ts:21-90 | every variant's hover background differs from its base background |
| `ButtonWeb.LeaveWhileLoadingKeepsHover` | src/components/Button/Button.web.tsx:89-111 | on values: a primary button hovered while enabled and left while loading keeps the hover background `#424242` |
| `ButtonWeb.HoverStuckThroughLoading` | src/components/Button/Button.web.tsx:89-111 | an enabled button hovered, then loading, then left, then done loading, keeps its variant's hover background both while and after loading, which is not its rendered background unless the caller fixes it |

## Left out

- React, React Native and DOM rendering (touchables, `<button>`, element trees), event objects, `testID`, and the `@keyframes spin` style element. Children are modelled only by which elements appear, in order.
- Icons are modelled only as given or not. Their content is opaque.
- The press handler's call is modelled by a boolean: whether it is reached.
- The line height (font size times 1.4) is left out, because it is floating point.
- Opacity is a two-valued tag, `Opaque` (1) or `Dimmed` (0.6), because the numbers are floating point. `activeOpacity` 0.7 is left out.
- The native `style` and `textStyle` override arrays (`[buttonStyle, style]`) are left out. Their result depends on React Native's style flattening, which is not part of this model. The web `...style` spread is modelled, as map union.
- JsNumber.ParseInt: does not model `-0` (`parseInt("-0")` is `-0`, modelled as 0) or the loss of precision past 2^53. No input in this design system comes near either.
- JsNumber.Px: prints every digit of an unbounded integer. JavaScript prints integers of magnitude 10^21 and above in exponent notation (`${1e21}px` is `"1e+21px"`, which `parseInt` reads as 1), and does not hold integers past 2^53 exactly. So `ParsePx`, `ParseDecimal` and `ParseIntOfPrinted` match JavaScript only below 2^53 in magnitude. Every number this design system renders is below 2000.
- The live element holds only the three colour keys the handlers touch. The other style keys are never written by a handler, so on the element they always equal the latest render's, and their update is not modelled.
- The web spinner's fixed size, border, radius and animation strings are left out. Only its top-border colour is modelled.
- The `shadows` table, the input, card and badge theme records, and the `rgba`/`${color}20` strings are left out, because no Button code reads them.
- The aggregate `pilotbaseTheme` object is not materialised. The modules import each other instead, and `theme.spacing`, `theme.typography` and `theme.borderRadius` are those modules' constants.
- Story files and re-export index files are left out, because they hold no logic.
