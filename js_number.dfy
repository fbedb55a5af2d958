/**
 * The two JavaScript built-ins the Button code relies on to move between
 * pixel strings and numbers: the global `parseInt` (called with one argument)
 * and the conversion of a number to a string inside a template literal
 * (`${n}px`). Only integer numbers ever arise, so a JavaScript number is
 * modelled as NaN or an integer.
 */
module JsNumber {

  /** A JavaScript number as produced by `parseInt`: NaN, or an integer. */
  datatype Num = NaN | Int(value: int)

  /**
   * The value of `c` as a digit: `0`-`9` are 0-9 and the letters, in either
   * case, are 10-35; every other character gets 36, a digit of no radix.
   */
  function DigitValue(c: char): (d: nat)
    ensures d <= 36
    ensures d < 10 <==> '0' <= c <= '9'
  {
    if '0' <= c <= '9' then c as int - '0' as int
    else if 'a' <= c <= 'z' then c as int - 'a' as int + 10
    else if 'A' <= c <= 'Z' then c as int - 'A' as int + 10
    else 36
  }

  predicate IsDigitOf(c: char, radix: nat) {
    DigitValue(c) < radix
  }

  /** The characters `parseInt` skips at the front: white space and line terminators. */
  predicate IsWhitespace(c: char) {
    c == '\t' || c == '\n' || c == '\U{000B}' || c == '\U{000C}' || c == '\r' ||
    c == ' ' || c == '\U{00A0}' || c == '\U{1680}' || '\U{2000}' <= c <= '\U{200A}' ||
    c == '\U{2028}' || c == '\U{2029}' || c == '\U{202F}' || c == '\U{205F}' ||
    c == '\U{3000}' || c == '\U{FEFF}'
  }

  /** `s` without its leading white space. */
  function TrimStart(s: string): (t: string)
    ensures |t| <= |s| && t == s[|s| - |t|..]
    ensures t == [] || !IsWhitespace(t[0])
    ensures forall i :: 0 <= i < |s| - |t| ==> IsWhitespace(s[i])
  {
    if |s| > 0 && IsWhitespace(s[0]) then TrimStart(s[1..]) else s
  }

  /** The length of the longest prefix of `s` made of digits of `radix`. */
  function DigitRun(s: string, radix: nat): (n: nat)
    ensures n <= |s|
    ensures forall i :: 0 <= i < n ==> IsDigitOf(s[i], radix)
    ensures n < |s| ==> !IsDigitOf(s[n], radix)
  {
    if |s| > 0 && IsDigitOf(s[0], radix) then 1 + DigitRun(s[1..], radix) else 0
  }

  /**
   * The number that the digits `ds` denote in `radix`, most significant
   * first; it is only ever applied to a run of digits of `radix`.
   */
  function DigitsValue(ds: string, radix: nat): nat {
    if ds == [] then 0
    else DigitsValue(ds[..|ds| - 1], radix) * radix + DigitValue(ds[|ds| - 1])
  }

  /**
   * The unsigned part of `parseInt`: radix 16 after a `0x`/`0X` prefix, radix
   * 10 otherwise, then the longest run of digits; NaN when that run is empty.
   * Whatever follows the digits (`px`, say) is ignored.
   */
  function ParseUnsigned(u: string): (r: Num)
    ensures r.Int? ==> r.value >= 0
  {
    var hex := |u| >= 2 && u[0] == '0' && (u[1] == 'x' || u[1] == 'X');
    var radix := if hex then 16 else 10;
    var body := if hex then u[2..] else u;
    var n := DigitRun(body, radix);
    if n == 0 then NaN else Int(DigitsValue(body[..n], radix))
  }

  function Negate(n: Num): Num {
    match n
    case NaN => NaN
    case Int(i) => Int(-i)
  }

  /**
   * `parseInt(s)` with no radix argument: skip leading white space, take an
   * optional sign, then read the unsigned part.
   */
  function ParseInt(s: string): Num {
    var t := TrimStart(s);
    if |t| > 0 && t[0] == '-' then Negate(ParseUnsigned(t[1..]))
    else if |t| > 0 && t[0] == '+' then ParseUnsigned(t[1..])
    else ParseUnsigned(t)
  }

  function DigitChar(d: nat): (c: char)
    requires d < 10
    ensures DigitValue(c) == d
  {
    ('0' as int + d) as char
  }

  /** The decimal digits of `n`, without leading zeros. */
  function NatToString(n: nat): (s: string)
    ensures |s| > 0
    ensures forall i :: 0 <= i < |s| ==> IsDigitOf(s[i], 10)
    ensures s[0] == '0' <==> n == 0
    ensures n == 0 ==> s == "0"
  {
    if n < 10 then [DigitChar(n)] else NatToString(n / 10) + [DigitChar(n % 10)]
  }

  /** How an integer-valued number prints: a `-` before the digits of a negative one. */
  function IntToString(i: int): string {
    if i < 0 then "-" + NatToString(-i) else NatToString(i)
  }

  /** `String(n)` for the numbers of this model. */
  function NumToString(n: Num): string {
    match n
    case NaN => "NaN"
    case Int(i) => IntToString(i)
  }

  /** The template literal `${n}px`. */
  function Px(n: Num): string {
    NumToString(n) + "px"
  }

  lemma {:induction false} DigitsValueOfNatToString(n: nat)
    ensures DigitsValue(NatToString(n), 10) == n
  {
    if n >= 10 {
      var p := NatToString(n / 10);
      var s := p + [DigitChar(n % 10)];
      assert NatToString(n) == s;
      assert s[..|s| - 1] == p;
      DigitsValueOfNatToString(n / 10);
    }
  }

  lemma {:induction false} DigitRunOfPrefix(ds: string, rest: string, radix: nat)
    requires forall i :: 0 <= i < |ds| ==> IsDigitOf(ds[i], radix)
    requires rest == [] || !IsDigitOf(rest[0], radix)
    ensures DigitRun(ds + rest, radix) == |ds|
  {
    if ds == [] {
      assert ds + rest == rest;
    } else {
      assert (ds + rest)[1..] == ds[1..] + rest;
      DigitRunOfPrefix(ds[1..], rest, radix);
    }
  }

  /** The digits of a natural number, followed by a suffix that does not extend them, read back. */
  lemma ParseUnsignedOfPrinted(m: nat, rest: string)
    requires rest == [] || !IsDigitOf(rest[0], 10)
    requires m == 0 && rest != [] ==> rest[0] != 'x' && rest[0] != 'X'
    ensures ParseUnsigned(NatToString(m) + rest) == Int(m)
  {
    var d := NatToString(m);
    var u := d + rest;
    assert |u| >= 2 && u[0] == '0' ==> m == 0 && u[1] == rest[0];
    DigitRunOfPrefix(d, rest, 10);
    assert u[..|d|] == d;
    DigitsValueOfNatToString(m);
  }

  /** A string that starts with `-` or a digit is read without trimming. */
  lemma ParseIntNoTrim(s: string)
    requires s != [] && (s[0] == '-' || IsDigitOf(s[0], 10))
    ensures ParseInt(s) == if s[0] == '-' then Negate(ParseUnsigned(s[1..])) else ParseUnsigned(s)
  {
    assert !IsWhitespace(s[0]);
    assert TrimStart(s) == s;
  }

  /**
   * Reading back a printed integer: `parseInt` returns the integer for every
   * suffix that does not extend its digits. The one trap is a printed zero
   * followed by `x`/`X`, which `parseInt` reads as a hexadecimal prefix.
   */
  lemma ParseIntOfPrinted(i: int, rest: string)
    requires rest == [] || !IsDigitOf(rest[0], 10)
    requires i == 0 && rest != [] ==> rest[0] != 'x' && rest[0] != 'X'
    ensures ParseInt(IntToString(i) + rest) == Int(i)
  {
    if i < 0 {
      ParseNegativeOfPrinted(i, rest);
    } else {
      ParseNonNegativeOfPrinted(i, rest);
    }
  }

  lemma ParseNegativeOfPrinted(i: int, rest: string)
    requires i < 0
    requires rest == [] || !IsDigitOf(rest[0], 10)
    ensures ParseInt(IntToString(i) + rest) == Int(i)
  {
    var d := NatToString(-i);
    var s := ['-'] + (d + rest);
    NegativeRendering(i);
    PrefixAssoc('-', d, rest);
    ParseIntMinus(d + rest);
    ParseUnsignedOfPrinted(-i, rest);
    calc {
      ParseInt(s);
      Negate(ParseUnsigned(d + rest));
      Negate(Int(-i));
      Int(i);
    }
  }

  /** A negative integer prints as `-` and the digits of its magnitude. */
  lemma NegativeRendering(i: int)
    requires i < 0
    ensures IntToString(i) == ['-'] + NatToString(-i)
  {
  }

  lemma PrefixAssoc(c: char, d: string, rest: string)
    ensures ([c] + d) + rest == [c] + (d + rest)
  {
  }

  /** A leading `-` negates what follows. */
  lemma ParseIntMinus(u: string)
    ensures ParseInt(['-'] + u) == Negate(ParseUnsigned(u))
  {
    var s := ['-'] + u;
    assert s[0] == '-' && s[1..] == u;
    ParseIntNoTrim(s);
  }

  lemma ParseNonNegativeOfPrinted(i: nat, rest: string)
    requires rest == [] || !IsDigitOf(rest[0], 10)
    requires i == 0 && rest != [] ==> rest[0] != 'x' && rest[0] != 'X'
    ensures ParseInt(IntToString(i) + rest) == Int(i)
  {
    var d := NatToString(i);
    var s := d + rest;
    assert IntToString(i) + rest == s;
    assert s[0] == d[0];
    ParseIntNoTrim(s);
    ParseUnsignedOfPrinted(i, rest);
  }

  /** Every rendered `${n}px` string of an integer parses back to that integer. */
  lemma ParsePx(i: int)
    ensures ParseInt(Px(Int(i))) == Int(i)
  {
    assert Px(Int(i)) == IntToString(i) + "px";
    ParseIntOfPrinted(i, "px");
  }

  /** The plain decimal rendering of an integer parses back to it. */
  lemma ParseDecimal(i: int)
    ensures ParseInt(IntToString(i)) == Int(i)
  {
    assert IntToString(i) + "" == IntToString(i);
    ParseIntOfPrinted(i, "");
  }

  /** `${NaN}px` is "NaNpx", and parsing it gives NaN back. */
  lemma ParseNaNPx()
    ensures Px(NaN) == "NaNpx" && ParseInt(Px(NaN)) == NaN
  {
    NaNRendering();
    ParseNaNText();
  }

  lemma NaNRendering()
    ensures Px(NaN) == "NaNpx"
  {
  }

  lemma ParseNaNText()
    ensures ParseInt("NaNpx") == NaN
  {
    var s := "NaNpx";
    assert !IsWhitespace(s[0]) && !IsDigitOf(s[0], 10);
    assert TrimStart(s) == s;
    assert DigitRun(s, 10) == 0;
  }
}
