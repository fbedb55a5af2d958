/** The colour tokens of the design system: hex strings grouped by role. */
module Colors {
  import opened JsNumber
  import opened Scales

  type Color = string

  datatype PrimaryColors = PrimaryColors(black: Color, white: Color)
  datatype OrangeColors = OrangeColors(light: Color, medium: Color, dark: Color)
  datatype SecondaryColors = SecondaryColors(orange: OrangeColors)
  datatype ElectricColors = ElectricColors(blue: Color)
  datatype TertiaryColors = TertiaryColors(beige: Color, denim: Color)
  datatype SemanticColors = SemanticColors(success: Color, warning: Color, error: Color, info: Color)
  /** The four states of one interactive role; a record, so no role can omit one. */
  datatype StateColors = StateColors(default: Color, hover: Color, active: Color, disabled: Color)
  datatype InteractiveColors = InteractiveColors(primary: StateColors, secondary: StateColors, tertiary: StateColors)

  datatype ColorTokens = ColorTokens(
    primary: PrimaryColors,
    secondary: SecondaryColors,
    electric: ElectricColors,
    tertiary: TertiaryColors,
    semantic: SemanticColors,
    neutral: map<nat, Color>,
    interactive: InteractiveColors)

  const primary := PrimaryColors("#212121", "#FFFFFF")
  const secondary := SecondaryColors(OrangeColors("#F6A345", "#F3781F", "#FE652A"))
  const electric := ElectricColors("#00FFF2")
  const tertiary := TertiaryColors("#E1D3C1", "#5177BB")
  const semantic := SemanticColors("#F6A345", "#F3781F", "#FE652A", "#00FFF2")
  const neutral: map<nat, Color> :=
    map[50 := "#FAFAFA", 100 := "#F5F5F5", 200 := "#EEEEEE", 300 := "#E0E0E0", 400 := "#BDBDBD",
        500 := "#9E9E9E", 600 := "#757575", 700 := "#616161", 800 := "#424242", 900 := "#212121"]
  const interactive := InteractiveColors(
    StateColors("#212121", "#424242", "#616161", "#BDBDBD"),
    StateColors("#F6A345", "#F3781F", "#FE652A", "#E0E0E0"),
    StateColors("#5177BB", "#4169a3", "#365891", "#BDBDBD"))

  /** The whole colour table, `colors`. */
  const colors := ColorTokens(primary, secondary, electric, tertiary, semantic, neutral, interactive)

  /** The neutral scale's keys, lightest first. */
  const NeutralShades: seq<nat> := [50, 100, 200, 300, 400, 500, 600, 700, 800, 900]

  /** `#` followed by six hexadecimal digits, in either case. */
  predicate IsHexColor(c: Color) {
    |c| == 7 && c[0] == '#' &&
    IsDigitOf(c[1], 16) && IsDigitOf(c[2], 16) && IsDigitOf(c[3], 16) &&
    IsDigitOf(c[4], 16) && IsDigitOf(c[5], 16) && IsDigitOf(c[6], 16)
  }

  /** The value, 0 to 255, of channel `k` (0 red, 1 green, 2 blue) of a hex colour. */
  function Channel(c: Color, k: nat): (v: nat)
    requires IsHexColor(c) && k < 3
    ensures v < 256
  {
    16 * DigitValue(c[1 + 2 * k]) + DigitValue(c[2 + 2 * k])
  }

  /** A grey: all three channels equal. */
  predicate IsGrey(c: Color) {
    IsHexColor(c) && Channel(c, 0) == Channel(c, 1) == Channel(c, 2)
  }

  /** Every colour value the table defines, group by group as the table lists them. */
  function AllColors(): seq<Color> {
    AccentColors() + NeutralColors() + InteractiveColorList()
  }

  /** The primary, secondary, electric, tertiary and semantic groups. */
  function AccentColors(): seq<Color> {
    PrimaryList() + OrangeList() + AccentList() + SemanticList()
  }

  function PrimaryList(): seq<Color> {
    [primary.black, primary.white]
  }

  function OrangeList(): seq<Color> {
    [secondary.orange.light, secondary.orange.medium, secondary.orange.dark]
  }

  /** The electric and tertiary accents. */
  function AccentList(): seq<Color> {
    [electric.blue, tertiary.beige, tertiary.denim]
  }

  function SemanticList(): seq<Color> {
    [semantic.success, semantic.warning, semantic.error, semantic.info]
  }

  /** The four states of one interactive role. */
  function RoleList(r: StateColors): seq<Color> {
    [r.default, r.hover, r.active, r.disabled]
  }

  /** The four states of each interactive role. */
  function InteractiveColorList(): seq<Color> {
    RoleList(interactive.primary) + RoleList(interactive.secondary) + RoleList(interactive.tertiary)
  }

  /** The neutral shades 50 to 400. */
  function LightNeutrals(): seq<Color> {
    [neutral[50], neutral[100], neutral[200], neutral[300], neutral[400]]
  }

  /** The neutral shades 500 to 900. */
  function DarkNeutrals(): seq<Color> {
    [neutral[500], neutral[600], neutral[700], neutral[800], neutral[900]]
  }

  /** The neutral scale from lightest to darkest. */
  function NeutralColors(): (s: seq<Color>)
    ensures |s| == |NeutralShades|
    ensures forall i :: 0 <= i < |s| ==> NeutralShades[i] in neutral && s[i] == neutral[NeutralShades[i]]
  {
    LightNeutrals() + DarkNeutrals()
  }

  /** The neutral scale has exactly the listed keys. */
  lemma NeutralKeys()
    ensures neutral.Keys == set k | k in NeutralShades
  {
  }

  lemma LightNeutralValues()
    ensures LightNeutrals() == ["#FAFAFA", "#F5F5F5", "#EEEEEE", "#E0E0E0", "#BDBDBD"]
  {
  }

  lemma DarkNeutralValues()
    ensures DarkNeutrals() == ["#9E9E9E", "#757575", "#616161", "#424242", "#212121"]
  {
  }

  /** Whether every colour in `cs` is a hex colour, checked one by one. */
  function AllHex(cs: seq<Color>): (ok: bool)
    ensures ok <==> forall i :: 0 <= i < |cs| ==> IsHexColor(cs[i])
  {
    if cs == [] then true
    else IsHexColor(cs[0]) && AllHex(cs[1..])
  }

  lemma {:induction false} AllHexAppend(a: seq<Color>, b: seq<Color>)
    requires AllHex(a) && AllHex(b)
    ensures AllHex(a + b)
  {
    if a != [] {
      assert (a + b)[1..] == a[1..] + b;
      AllHexAppend(a[1..], b);
    } else {
      assert a + b == b;
    }
  }

  /** Every colour value of the table is `#` followed by six hexadecimal digits. */
  lemma EveryColorIsHex()
    ensures AllHex(AllColors())
    ensures forall i :: 0 <= i < |AllColors()| ==> IsHexColor(AllColors()[i])
  {
    AccentsAreHex();
    NeutralsAreHex();
    InteractiveAreHex();
    AllHexAppend(AccentColors(), NeutralColors());
    AllHexAppend(AccentColors() + NeutralColors(), InteractiveColorList());
  }

  lemma AccentsAreHex()
    ensures AllHex(AccentColors())
  {
    PrimaryAndOrangeAreHex();
    AccentAndSemanticAreHex();
    AllHexAppend(PrimaryList() + OrangeList(), AccentList() + SemanticList());
    assert AccentColors() == (PrimaryList() + OrangeList()) + (AccentList() + SemanticList());
  }

  lemma PrimaryAndOrangeAreHex()
    ensures AllHex(PrimaryList() + OrangeList())
  {
    assert PrimaryList() + OrangeList() == ["#212121", "#FFFFFF", "#F6A345", "#F3781F", "#FE652A"];
  }

  lemma AccentAndSemanticAreHex()
    ensures AllHex(AccentList() + SemanticList())
  {
    assert AccentList() + SemanticList() == ["#00FFF2", "#E1D3C1", "#5177BB", "#F6A345", "#F3781F", "#FE652A", "#00FFF2"];
  }

  lemma NeutralsAreHex()
    ensures AllHex(NeutralColors())
  {
    LightNeutralsAreHex();
    DarkNeutralsAreHex();
    AllHexAppend(LightNeutrals(), DarkNeutrals());
  }

  lemma LightNeutralsAreHex()
    ensures AllHex(LightNeutrals())
  {
    LightNeutralValues();
    assert AllHex(["#FAFAFA", "#F5F5F5", "#EEEEEE", "#E0E0E0", "#BDBDBD"]);
  }

  lemma DarkNeutralsAreHex()
    ensures AllHex(DarkNeutrals())
  {
    DarkNeutralValues();
    assert AllHex(["#9E9E9E", "#757575", "#616161", "#424242", "#212121"]);
  }

  lemma InteractiveAreHex()
    ensures AllHex(InteractiveColorList())
  {
    var p, s, t := RoleList(interactive.primary), RoleList(interactive.secondary), RoleList(interactive.tertiary);
    assert AllHex(p) && AllHex(s);
    AllHexAppend(p, s);
    TertiaryRoleIsHex();
    AllHexAppend(p + s, t);
  }

  lemma TertiaryRoleIsHex()
    ensures AllHex(RoleList(interactive.tertiary))
  {
    assert RoleList(interactive.tertiary) == ["#5177BB", "#4169a3", "#365891", "#BDBDBD"];
  }

  /** The darkest neutral is the primary black. */
  lemma NeutralDarkestIsBlack()
    ensures neutral[900] == primary.black == "#212121"
  {
  }

  /** A hex colour whose red, green and blue digit pairs are the same characters is a grey. */
  lemma GreyByDigits(c: Color)
    requires IsHexColor(c) && c[1] == c[3] == c[5] && c[2] == c[4] == c[6]
    ensures IsGrey(c)
  {
  }

  /** Every listed hex colour whose three digit pairs agree is a grey. */
  lemma GreysByDigits(cs: seq<Color>)
    requires forall i :: 0 <= i < |cs| ==>
      IsHexColor(cs[i]) && cs[i][1] == cs[i][3] == cs[i][5] && cs[i][2] == cs[i][4] == cs[i][6]
    ensures forall i :: 0 <= i < |cs| ==> IsGrey(cs[i])
  {
    forall i | 0 <= i < |cs| ensures IsGrey(cs[i]) {
      GreyByDigits(cs[i]);
    }
  }

  /** Every neutral is a grey. */
  lemma NeutralsAreGrey()
    ensures forall i :: 0 <= i < |NeutralColors()| ==> IsGrey(NeutralColors()[i])
  {
    LightNeutralsAreGrey();
    DarkNeutralsAreGrey();
    forall i | 5 <= i < |NeutralColors()| ensures IsGrey(NeutralColors()[i]) {
      assert NeutralColors()[i] == DarkNeutrals()[i - 5];
    }
  }

  lemma LightNeutralsAreGrey()
    ensures forall i :: 0 <= i < 5 ==> IsGrey(LightNeutrals()[i])
  {
    LightNeutralsAreHex();
    LightNeutralValues();
    GreysByDigits(LightNeutrals());
  }

  lemma DarkNeutralsAreGrey()
    ensures forall i :: 0 <= i < 5 ==> IsGrey(DarkNeutrals()[i])
  {
    DarkNeutralsAreHex();
    DarkNeutralValues();
    GreysByDigits(DarkNeutrals());
  }

  /** The grey level of each neutral shade, lightest first. */
  const NeutralLevels: seq<int> := [0xFA, 0xF5, 0xEE, 0xE0, 0xBD, 0x9E, 0x75, 0x61, 0x42, 0x21]

  /** The neutrals get strictly darker from 50 to 900: their red channels are the strictly decreasing levels. */
  lemma NeutralsDarken()
    ensures forall i :: 0 <= i < |NeutralColors()| ==>
      IsHexColor(NeutralColors()[i]) && Channel(NeutralColors()[i], 0) == NeutralLevels[i]
    ensures StrictlyDecreasing(NeutralLevels)
  {
    LightLevels();
    DarkLevels();
    forall i | 0 <= i < |NeutralColors()|
      ensures IsHexColor(NeutralColors()[i]) && Channel(NeutralColors()[i], 0) == NeutralLevels[i]
    {
      if i >= 5 {
        assert NeutralColors()[i] == DarkNeutrals()[i - 5];
      }
    }
    LevelsDecrease();
  }

  lemma LevelsDecrease()
    ensures StrictlyDecreasing(NeutralLevels)
  {
    StepsDownDecreasing(NeutralLevels);
  }

  lemma LightLevels()
    ensures forall i :: 0 <= i < 5 ==> IsHexColor(LightNeutrals()[i]) && Channel(LightNeutrals()[i], 0) == NeutralLevels[i]
  {
    forall i | 0 <= i < 5 ensures IsHexColor(LightNeutrals()[i]) && Channel(LightNeutrals()[i], 0) == NeutralLevels[i] {
      LightLevel(i);
    }
  }

  lemma LightLevel(i: nat)
    requires i < 5
    ensures IsHexColor(LightNeutrals()[i]) && Channel(LightNeutrals()[i], 0) == NeutralLevels[i]
  {
    LightNeutralsAreHex();
    LightNeutralValues();
    if i == 0 { assert Channel("#FAFAFA", 0) == 0xFA; }
    else if i == 1 { assert Channel("#F5F5F5", 0) == 0xF5; }
    else if i == 2 { assert Channel("#EEEEEE", 0) == 0xEE; }
    else if i == 3 { assert Channel("#E0E0E0", 0) == 0xE0; }
    else { assert Channel("#BDBDBD", 0) == 0xBD; }
  }

  lemma DarkLevels()
    ensures forall i :: 0 <= i < 5 ==> IsHexColor(DarkNeutrals()[i]) && Channel(DarkNeutrals()[i], 0) == NeutralLevels[5 + i]
  {
    forall i | 0 <= i < 5 ensures IsHexColor(DarkNeutrals()[i]) && Channel(DarkNeutrals()[i], 0) == NeutralLevels[5 + i] {
      DarkLevel(i);
    }
  }

  lemma DarkLevel(i: nat)
    requires i < 5
    ensures IsHexColor(DarkNeutrals()[i]) && Channel(DarkNeutrals()[i], 0) == NeutralLevels[5 + i]
  {
    DarkNeutralsAreHex();
    DarkNeutralValues();
    if i == 0 { assert Channel("#9E9E9E", 0) == 0x9E; }
    else if i == 1 { assert Channel("#757575", 0) == 0x75; }
    else if i == 2 { assert Channel("#616161", 0) == 0x61; }
    else if i == 3 { assert Channel("#424242", 0) == 0x42; }
    else { assert Channel("#212121", 0) == 0x21; }
  }

  /** Each interactive role's default is the base colour of that role. */
  lemma InteractiveDefaults()
    ensures interactive.primary.default == primary.black
    ensures interactive.secondary.default == secondary.orange.light
    ensures interactive.tertiary.default == tertiary.denim
  {
  }

  /** The semantic colours reuse the orange and electric accents. */
  lemma SemanticAliases()
    ensures semantic.success == secondary.orange.light
    ensures semantic.warning == secondary.orange.medium
    ensures semantic.error == secondary.orange.dark
    ensures semantic.info == electric.blue
  {
  }

  /** The interactive hover, active and disabled states reuse orange and neutral entries. */
  lemma InteractiveStateAliases()
    ensures interactive.secondary.hover == secondary.orange.medium
    ensures interactive.secondary.active == secondary.orange.dark
    ensures interactive.primary.hover == neutral[800]
    ensures interactive.primary.active == neutral[700]
    ensures interactive.primary.disabled == neutral[400]
  {
  }
}
