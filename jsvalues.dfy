/** The JavaScript values the model needs: optional values (`undefined`),
    plain objects as string-keyed maps, truthiness, and `Number(string)`. */
module JsValues {
  import opened Text

  datatype Option<T> = None | Some(value: T)

  /** A primitive JSON value. */
  datatype JsValue = JStr(s: string) | JBool(b: bool) | JNum(n: int)

  /** A plain object: `{...a, ...b}` is `a + b` (keys of `b` win). */
  type JsObject = map<string, JsValue>

  /** Property access: `o.key`, `None` standing for `undefined`. */
  function Get(o: JsObject, key: string): (v: Option<JsValue>)
    ensures v.Some? <==> key in o
    ensures v.Some? ==> v.value == o[key]
  {
    if key in o then Some(o[key]) else None
  }

  /** JavaScript truthiness of a primitive or `undefined`. */
  predicate Truthy(v: Option<JsValue>)
    ensures !Truthy(v) <==> v == None || v == Some(JStr("")) || v == Some(JBool(false)) || v == Some(JNum(0))
  {
    match v
    case None => false
    case Some(JStr(s)) => s != ""
    case Some(JBool(b)) => b
    case Some(JNum(n)) => n != 0
  }

  /** Truthiness of an optional string field (`!x` is true for a missing or empty one). */
  predicate Present(s: Option<string>) {
    s.Some? && s.value != ""
  }

  /** `x || ""` for an optional string field. */
  function OrEmpty(s: Option<string>): (r: string)
    ensures Present(s) ==> r == s.value
    ensures !Present(s) ==> r == ""
  {
    if s.Some? then s.value else ""
  }

  /** `x || d` for an optional string field. */
  function OrDefault(s: Option<string>, d: string): (r: string)
    ensures Present(s) ==> r == s.value
    ensures !Present(s) ==> r == d
  {
    if Present(s) then s.value else d
  }

  /** A JavaScript number, with exact rationals for the finite ones. */
  datatype JsNumber = Finite(value: real) | NaN | PosInfinity | NegInfinity

  /** Number.isFinite. */
  predicate IsFinite(n: JsNumber) {
    n.Finite?
  }

  /** `n <= 0`; every comparison with NaN is false. */
  predicate AtMostZero(n: JsNumber) {
    match n
    case Finite(v) => v <= 0.0
    case NaN => false
    case PosInfinity => false
    case NegInfinity => true
  }

  /** `n > 0`; every comparison with NaN is false. */
  predicate AboveZero(n: JsNumber) {
    match n
    case Finite(v) => v > 0.0
    case NaN => false
    case PosInfinity => true
    case NegInfinity => false
  }

  predicate IsDigit(c: char) {
    '0' <= c <= '9'
  }

  predicate AllDigits(s: string) {
    forall i :: 0 <= i < |s| ==> IsDigit(s[i])
  }

  /** The value of a string of decimal digits. */
  function DigitsValue(s: string): nat
    requires AllDigits(s)
  {
    if s == [] then 0 else 10 * DigitsValue(s[..|s| - 1]) + (s[|s| - 1] as int - '0' as int)
  }

  function Pow10(k: nat): (p: nat)
    ensures p >= 1
  {
    if k == 0 then 1 else 10 * Pow10(k - 1)
  }

  /** Index of the first '.', or |s| when there is none. */
  function DotIndex(s: string): (k: nat)
    ensures k <= |s|
    ensures k < |s| ==> s[k] == '.'
    ensures forall i :: 0 <= i < k ==> s[i] != '.'
  {
    if s == [] then 0 else if s[0] == '.' then 0 else 1 + DotIndex(s[1..])
  }

  /** An unsigned decimal literal without exponent: digits, optionally a '.'
      and more digits, at least one digit in all. Anything else is NaN. */
  function ParseUnsigned(t: string): (n: JsNumber)
    ensures n.Finite? || n == NaN
    ensures n.Finite? ==> n.value >= 0.0
  {
    var k := DotIndex(t);
    var whole := t[..k];
    var frac := if k < |t| then t[k + 1..] else "";
    if (whole == [] && frac == []) || !AllDigits(whole) || !AllDigits(frac) then NaN
    else Finite(DigitsValue(whole) as real + DigitsValue(frac) as real / Pow10(|frac|) as real)
  }

  function Negate(n: JsNumber): JsNumber {
    match n
    case Finite(v) => Finite(-v)
    case NaN => NaN
    case PosInfinity => NegInfinity
    case NegInfinity => PosInfinity
  }

  /** `Number(s)` for a string: white space around the literal is ignored,
      the empty string is 0, an optional sign, "Infinity", or a decimal
      literal; every other string is NaN. */
  function ParseNumber(s: string): (n: JsNumber)
    ensures Trim(s) == "" ==> n == Finite(0.0)
    ensures n == PosInfinity <==> Trim(s) == "Infinity" || Trim(s) == "+Infinity"
    ensures n == NegInfinity <==> Trim(s) == "-Infinity"
    ensures n.Finite? && n.value < 0.0 ==> |Trim(s)| > 0 && Trim(s)[0] == '-'
  {
    var t := Trim(s);
    if t == "" then Finite(0.0)
    else if t == "Infinity" || t == "+Infinity" then PosInfinity
    else if t == "-Infinity" then NegInfinity
    else if t[0] == '-' then Negate(ParseUnsigned(t[1..]))
    else if t[0] == '+' then ParseUnsigned(t[1..])
    else ParseUnsigned(t)
  }

  /** A character that can appear in a decimal literal. */
  predicate IsNumeralChar(c: char) {
    IsDigit(c) || c == '.' || c == '+' || c == '-'
  }

  predicate IsInfinityLiteral(t: string) {
    t == "Infinity" || t == "+Infinity" || t == "-Infinity"
  }

  /** A string with a digit, a letter or any other character outside a decimal
      literal in it (once trimmed, and unless it spells Infinity) is NaN:
      `Number("abc")`, `Number("12abc")`, `Number("1,5")`. */
  lemma NonNumeralIsNaN(s: string, i: nat)
    requires i < |Trim(s)| && !IsNumeralChar(Trim(s)[i])
    requires !IsInfinityLiteral(Trim(s))
    ensures ParseNumber(s) == NaN
  {
    var t := Trim(s);
    if t[0] == '-' || t[0] == '+' {
      UnsignedNaN(t[1..], i - 1);
    } else {
      UnsignedNaN(t, i);
    }
  }

  /** A character other than a digit or '.' makes an unsigned literal NaN. */
  lemma UnsignedNaN(t: string, i: nat)
    requires i < |t| && !IsDigit(t[i]) && t[i] != '.'
    ensures ParseUnsigned(t) == NaN
  {
    var k := DotIndex(t);
    if i < k {
      assert t[..k][i] == t[i];
    } else {
      assert t[k + 1..][i - k - 1] == t[i];
    }
  }

  /** A non-zero digit gives a positive value. */
  lemma {:induction false} DigitsValuePositive(s: string, i: nat)
    requires AllDigits(s) && i < |s| && s[i] != '0'
    ensures DigitsValue(s) > 0
    decreases |s|
  {
    if i < |s| - 1 {
      DigitsValuePositive(s[..|s| - 1], i);
    }
  }

  /** A run of digits, with white space around it or not, is its decimal value. */
  lemma NumberOfDigits(s: string)
    requires Trim(s) != [] && AllDigits(Trim(s))
    ensures ParseNumber(s) == Finite(DigitsValue(Trim(s)) as real)
  {
    var t := Trim(s);
    assert t[0] != '-' && t[0] != '+' && t[0] != 'I' by { assert IsDigit(t[0]); }
    assert ParseNumber(s) == ParseUnsigned(t);
    UnsignedOfDigits(t);
  }

  /** A non-empty run of digits has no '.' and is its decimal value. */
  lemma UnsignedOfDigits(t: string)
    requires t != [] && AllDigits(t)
    ensures ParseUnsigned(t) == Finite(DigitsValue(t) as real)
  {
    assert forall i :: 0 <= i < |t| ==> t[i] != '.';
    assert DotIndex(t) == |t|;
    assert t[..|t|] == t;
  }

  /** A run of digits with a non-zero digit in it is a positive finite number. */
  lemma PositiveDigits(s: string, i: nat)
    requires s != [] && AllDigits(s) && i < |s| && s[i] != '0'
    ensures ParseNumber(s).Finite? && ParseNumber(s).value > 0.0
  {
    assert IsTrimmed(s);
    TrimTrimmed(s);
    NumberOfDigits(s);
    DigitsValuePositive(s, i);
  }

  /** `Number("abc")` is NaN. */
  lemma NumberOfWord()
    ensures ParseNumber("abc") == NaN
  {
    TrimTrimmed("abc");
    NonNumeralIsNaN("abc", 0);
  }

  /** An example of NumberOfDigits, which carries the general property: `Number("0")` is 0. */
  lemma NumberOfZero()
    ensures ParseNumber("0") == Finite(0.0)
  {
    TrimTrimmed("0");
    NumberOfDigits("0");
    assert DigitsValue("0") == 0 by { assert "0"[..0] == ""; }
  }

  /** An example of NumberOfDigits, which carries the general property:
      `Number(" 250 ")` is 250, the white space around it being ignored. */
  lemma NumberOfPaddedDigits()
    ensures ParseNumber(" 250 ") == Finite(250.0)
  {
    assert !IsJsSpace('2') && !IsJsSpace('0');
    assert TrimStart("250 ") == "250 ";
    assert TrimStart(" 250 ") == "250 " by { assert " 250 "[1..] == "250 "; }
    assert TrimEnd("250") == "250";
    assert TrimEnd("250 ") == "250" by { assert "250 "[..3] == "250"; }
    assert Trim(" 250 ") == "250";
    NumberOfDigits(" 250 ");
    assert DigitsValue("250") == 250 by {
      assert "250"[..2] == "25";
      assert "25"[..1] == "2";
      assert "2"[..0] == "";
    }
  }
}
