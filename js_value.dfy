/**
 * The slice of JavaScript value semantics that the two handlers rely on:
 * parsed JSON values, truthiness, optional chaining (`v?.key`), nullish
 * coalescing (`a ?? b`), `Number(...)` coercion and `String(...)`.
 *
 * JavaScript numbers are modelled as exact reals; `NaN` is a value of its own.
 * `undefined` is `None` of an `Option<Json>`, `null` is `JNull`.
 */
module JsValue {
  import opened Wrappers

  /** A JavaScript number: `NaN` or a finite value (exact, no IEEE rounding). */
  datatype Num = NaN | Fin(r: real)

  /** A value produced by `JSON.parse`. Objects are maps: their key order never matters. */
  datatype Json =
    | JNull
    | JBool(b: bool)
    | JNum(n: real)
    | JStr(s: string)
    | JArr(elems: seq<Json>)
    | JObj(fields: map<string, Json>)

  // ---------------------------------------------------------------------------
  // Truthiness, property access and `??`
  // ---------------------------------------------------------------------------

  /** The falsy values JSON can produce (`NaN` and `undefined` are not JSON values). */
  const FalsyValues: set<Json> := {JNull, JBool(false), JNum(0.0), JStr("")}

  /** JavaScript truthiness of a present value: `null`, `false`, `0` and `""` are falsy. */
  predicate Truthy(v: Json)
    ensures Truthy(v) <==> v !in FalsyValues
  {
    match v
    case JNull => false
    case JBool(b) => b
    case JNum(n) => n != 0.0
    case JStr(s) => s != ""
    case JArr(_) => true
    case JObj(_) => true
  }

  /** Truthiness of a possibly `undefined` value. */
  predicate TruthyOpt(o: Option<Json>) {
    o.Some? && Truthy(o.value)
  }

  /**
   * `v?.key` (and `v.key`) for the property names the handlers use: only an object
   * that holds the key yields a value; `null`, strings, numbers, booleans and
   * arrays carry none of these names.
   */
  function Get(v: Json, key: string): Option<Json>
  {
    match v
    case JObj(m) => if key in m then Some(m[key]) else None
    case _ => None
  }

  /** `o?.key` where `o` itself may be `undefined`. */
  function GetIn(o: Option<Json>, key: string): Option<Json>
  {
    match o
    case None => None
    case Some(v) => Get(v, key)
  }

  /** `??` falls back only on `undefined` and `null`: `""`, `0` and `false` are present. */
  predicate Present(o: Option<Json>) {
    o.Some? && o.value != JNull
  }

  /** No candidate before position `i` is present. */
  predicate NoneBefore(cands: seq<Option<Json>>, i: int) {
    forall j :: 0 <= j < i && j < |cands| ==> !Present(cands[j])
  }

  /**
   * `c0 ?? c1 ?? ... ?? dflt`: the first present candidate wins; the default is
   * taken only when every candidate is `undefined` or `null`.
   */
  function FirstPresent(cands: seq<Option<Json>>, dflt: Json): (r: Json)
    ensures (forall i :: 0 <= i < |cands| ==> !Present(cands[i])) ==> r == dflt
    ensures forall i :: 0 <= i < |cands| && Present(cands[i]) && NoneBefore(cands, i) ==> r == cands[i].value
    ensures r == dflt || exists i :: 0 <= i < |cands| && Present(cands[i]) && r == cands[i].value
    decreases |cands|
  {
    if |cands| == 0 then dflt
    else if Present(cands[0]) then cands[0].value
    else FirstPresent(cands[1..], dflt)
  }

  // ---------------------------------------------------------------------------
  // Number(...)
  // ---------------------------------------------------------------------------

  predicate IsSpace(c: char) {
    c == ' ' || c == '\t' || c == '\n' || c == '\r'
  }

  predicate IsDigit(c: char) {
    '0' <= c <= '9'
  }

  predicate AllDigits(s: string) {
    forall i :: 0 <= i < |s| ==> IsDigit(s[i])
  }

  function DigitOf(c: char): (d: nat)
    requires IsDigit(c)
    ensures d < 10
  {
    (c as int) - ('0' as int)
  }

  function DigitChar(d: nat): (c: char)
    requires d < 10
    ensures IsDigit(c) && DigitOf(c) == d
  {
    (('0' as int) + d) as char
  }

  function TrimStart(s: string): (t: string)
    ensures |t| <= |s| && (t != [] ==> !IsSpace(t[0]))
  {
    if s != [] && IsSpace(s[0]) then TrimStart(s[1..]) else s
  }

  function TrimEnd(s: string): (t: string)
    ensures |t| <= |s| && (t != [] ==> !IsSpace(t[|t| - 1]))
  {
    if s != [] && IsSpace(s[|s| - 1]) then TrimEnd(s[..|s| - 1]) else s
  }

  /** Value of a run of decimal digits, most significant first. */
  function DigitsValue(ds: string): (n: nat)
    requires AllDigits(ds)
  {
    if ds == [] then 0 else DigitsValue(ds[..|ds| - 1]) * 10 + DigitOf(ds[|ds| - 1])
  }

  /** Value of the digits after a decimal point. */
  function FractionValue(ds: string): (x: real)
    requires AllDigits(ds)
    ensures 0.0 <= x <= 1.0
  {
    if ds == [] then 0.0 else (DigitOf(ds[0]) as real + FractionValue(ds[1..])) / 10.0
  }

  /** Position of the first '.', or |s| when there is none. */
  function DotIndex(s: string): (p: nat)
    ensures p <= |s|
    ensures forall i :: 0 <= i < p ==> s[i] != '.'
    ensures p < |s| ==> s[p] == '.'
  {
    if s == [] then 0 else if s[0] == '.' then 0 else 1 + DotIndex(s[1..])
  }

  /** An unsigned decimal literal `digits`, `digits.digits`, `.digits` or `digits.`. */
  function UnsignedDecimal(u: string): (r: Num)
  {
    var p := DotIndex(u);
    var whole := u[..p];
    var frac := if p < |u| then u[p + 1..] else "";
    if AllDigits(whole) && AllDigits(frac) && |whole| + |frac| > 0
    then Fin(DigitsValue(whole) as real + FractionValue(frac))
    else NaN
  }

  /**
   * `Number(s)` for a string: surrounding white space is ignored, the empty string
   * is 0, a signed decimal literal is its value, anything else is NaN.
   */
  function StringToNumber(s: string): (r: Num)
    ensures r.Fin? && r.r < 0.0 ==> TrimEnd(TrimStart(s)) != [] && TrimEnd(TrimStart(s))[0] == '-'
  {
    var t := TrimEnd(TrimStart(s));
    if t == [] then Fin(0.0)
    else if t[0] == '-' then
      (match UnsignedDecimal(t[1..]) case Fin(x) => Fin(-x) case NaN => NaN)
    else if t[0] == '+' then UnsignedDecimal(t[1..])
    else UnsignedDecimal(t)
  }

  /**
   * `Number(v)` for a parsed JSON value. An array converts through its text:
   * `[]` is "" (0), a one-element array is the text of its element (with `null`
   * as ""), and two or more elements are joined by "," (never a number). Where
   * `String(v)` is rendered, `Number(v)` is the number of that text, except for
   * `null` and booleans, whose text is not numeric.
   */
  function ToNumber(v: Json): (r: Num)
    ensures StringOf(v).Text? && !v.JNull? && !v.JBool? ==> r == StringToNumber(StringOf(v).s)
  {
    ObjectTextIsNaN();
    IntTextRoundTrip(if v.JNum? then v.n.Floor else 0);
    match v
    case JNull => Fin(0.0)
    case JBool(b) => Fin(if b then 1.0 else 0.0)
    case JNum(n) => Fin(n)
    case JStr(s) => StringToNumber(s)
    case JObj(_) => NaN
    case JArr(es) =>
      if |es| == 0 then Fin(0.0)
      else if |es| > 1 then NaN
      else
        match es[0]
        case JNull => Fin(0.0)
        case JBool(_) => NaN
        case JNum(n) => Fin(n)
        case JStr(s) => StringToNumber(s)
        case JObj(_) => NaN
        case JArr(_) => ToNumber(es[0])
  }

  /**
   * Whether converting `v` to a primitive, as `Number(v)` and `String(v)` do, throws
   * a TypeError. A parsed object with an own `toString` property has a non-callable
   * one, so neither it nor the inherited `valueOf` yields a primitive. An array
   * converts through `join`, which converts every element that is not `null`.
   * `ToNumber` and `StringOf` describe the conversions that do not throw.
   */
  predicate ToPrimitiveThrows(v: Json)
    ensures ToPrimitiveThrows(v) ==> v.JObj? || (v.JArr? && |v.elems| > 0)
    decreases v
  {
    match v
    case JObj(m) => "toString" in m
    case JArr(es) => exists i :: 0 <= i < |es| && ToPrimitiveThrows(es[i])
    case _ => false
  }

  /** `n > 0` on JavaScript numbers: false for NaN. */
  predicate Positive(n: Num) {
    n.Fin? && n.r > 0.0
  }

  // JavaScript arithmetic: NaN in, NaN out.

  function Add(a: Num, b: Num): Num
  {
    if a.Fin? && b.Fin? then Fin(a.r + b.r) else NaN
  }

  function Sub(a: Num, b: Num): Num
  {
    if a.Fin? && b.Fin? then Fin(a.r - b.r) else NaN
  }

  function Mul(a: Num, b: Num): Num
  {
    if a.Fin? && b.Fin? then Fin(a.r * b.r) else NaN
  }

  /** `Math.max(a, b)`: NaN when either operand is NaN. */
  function Max(a: Num, b: Num): (r: Num)
    ensures r.Fin? <==> a.Fin? && b.Fin?
    ensures r.Fin? ==> r.r >= a.r && r.r >= b.r && (r.r == a.r || r.r == b.r)
  {
    if a.Fin? && b.Fin? then Fin(if a.r >= b.r then a.r else b.r) else NaN
  }

  /** The smallest integer at or above `x`. */
  function Ceil(x: real): int
  {
    -((-x).Floor)
  }

  /** `Math.ceil` on JavaScript numbers. */
  function CeilNum(a: Num): (r: Num)
    ensures r.Fin? <==> a.Fin?
    ensures r.Fin? ==> a.r <= r.r < a.r + 1.0 && r.r == r.r.Floor as real
  {
    CeilIsLeastUpperInteger(if a.Fin? then a.r else 0.0, 0);
    if a.Fin? then Fin(Ceil(a.r) as real) else NaN
  }

  /** `Ceil` is the least integer at or above its argument. */
  lemma CeilIsLeastUpperInteger(x: real, k: int)
    ensures Ceil(x) as real >= x
    ensures (Ceil(x) - 1) as real < x
    ensures k as real >= x ==> k >= Ceil(x)
  {
    var f := (-x).Floor;
    assert f as real <= -x < f as real + 1.0;
  }

  /** Subtracting an integer commutes with `Ceil`. */
  lemma CeilMinusInteger(x: real, n: int)
    ensures Ceil(x - n as real) == Ceil(x) - n
  {
    CeilIsLeastUpperInteger(x, Ceil(x - n as real) + n);
    CeilIsLeastUpperInteger(x - n as real, Ceil(x) - n);
  }

  // ---------------------------------------------------------------------------
  // String(...)
  // ---------------------------------------------------------------------------

  /** Decimal digits of a natural number, most significant first, without leading zeros. */
  function NatText(n: nat): (s: string)
    ensures |s| > 0 && AllDigits(s)
  {
    if n < 10 then [DigitChar(n)] else NatText(n / 10) + [DigitChar(n % 10)]
  }

  /** Decimal text of an integer, with a leading '-' when it is negative. */
  function IntText(i: int): (s: string)
  {
    if i < 0 then "-" + NatText(-i) else NatText(i)
  }

  /** The text `String(v)` gives where the model renders it, or the TypeError it throws. */
  datatype JsText = Text(s: string) | Unrendered(v: Json) | Throws

  /**
   * `String(v)`. Strings, `null`, booleans, plain objects and integers below 10^21
   * in magnitude are rendered; other numbers (shortest round-trip or exponent
   * form) and arrays are kept as `Unrendered(v)`; a value whose conversion to a
   * primitive throws gives `Throws`.
   */
  function StringOf(v: Json): (t: JsText)
    ensures t.Throws? <==> ToPrimitiveThrows(v)
    ensures v.JStr? ==> t == Text(v.s)
    ensures v.JObj? && !t.Throws? ==> t == Text("[object Object]")
    ensures v.JNum? && t.Text? ==> StringToNumber(t.s) == Fin(v.n)
  {
    IntTextRoundTrip(if v.JNum? then v.n.Floor else 0);
    if ToPrimitiveThrows(v) then Throws
    else match v
    case JStr(s) => Text(s)
    case JNull => Text("null")
    case JBool(b) => Text(if b then "true" else "false")
    case JObj(_) => Text("[object Object]")
    case JNum(n) =>
      if n == n.Floor as real && -1e21 < n < 1e21 then Text(IntText(n.Floor)) else Unrendered(v)
    case JArr(_) => Unrendered(v)
  }

  lemma {:induction false} NatTextValue(n: nat)
    ensures DigitsValue(NatText(n)) == n
    ensures DotIndex(NatText(n)) == |NatText(n)|
    decreases n
  {
    var s := NatText(n);
    if n >= 10 {
      NatTextValue(n / 10);
      assert s[..|s| - 1] == NatText(n / 10);
      assert forall i :: 0 <= i < |s| ==> s[i] != '.';
    }
  }

  /** The digits of a natural number read back as an unsigned decimal of that value. */
  lemma NatTextDecimal(m: nat)
    ensures UnsignedDecimal(NatText(m)) == Fin(m as real)
    ensures TrimEnd(TrimStart(NatText(m))) == NatText(m)
  {
    var d := NatText(m);
    NatTextValue(m);
    assert d[..|d|] == d;
  }

  /** The text of an integer reads back, through `Number`, as that integer. */
  lemma IntTextRoundTrip(i: int)
    ensures StringToNumber(IntText(i)) == Fin(i as real)
  {
    var s := IntText(i);
    var m := if i < 0 then -i else i;
    var d := NatText(m);
    NatTextDecimal(m);
    if i < 0 {
      assert TrimStart(s) == s && TrimEnd(s) == s;
      assert s[1..] == d;
    } else {
      assert s == d && s[0] != '-' && s[0] != '+';
    }
  }

  /** `"[object Object]"` is not a number. */
  lemma ObjectTextIsNaN()
    ensures StringToNumber("[object Object]") == NaN
  {
    var s := "[object Object]";
    assert TrimStart(s) == s && TrimEnd(s) == s;
    assert !IsDigit(s[0]) && s[0] != '-' && s[0] != '+';
    assert s[0] != '.';
    var p := DotIndex(s);
    assert p > 0 && s[..p][0] == s[0];
  }

  /** A decimal text with a fraction is its value. */
  lemma FractionTextExample()
    ensures StringToNumber("2.5") == Fin(2.5)
  {
    assert DotIndex("2.5") == 1 by { assert "2.5"[1..] == ".5"; }
    assert "2.5"[..1] == "2" && "2.5"[2..] == "5";
    assert DigitsValue("2") == 2 by { assert "2"[..0] == ""; }
    assert FractionValue("5") == 0.5 by { assert "5"[1..] == ""; }
  }

  /** Surrounding white space is ignored and a leading '-' negates. */
  lemma SignedPaddedTextExample()
    ensures StringToNumber(" -0.75\n") == Fin(-0.75)
  {
    assert TrimStart(" -0.75\n") == "-0.75\n" by { assert " -0.75\n"[1..] == "-0.75\n"; }
    assert TrimEnd("-0.75\n") == "-0.75" by { assert "-0.75\n"[..5] == "-0.75"; }
    assert "-0.75"[1..] == "0.75";
    assert DotIndex("0.75") == 1 by { assert "0.75"[1..] == ".75"; }
    assert "0.75"[..1] == "0" && "0.75"[2..] == "75";
    assert DigitsValue("0") == 0 by { assert "0"[..0] == ""; }
    assert FractionValue("75") == 0.75 by { assert "75"[1..] == "5" && "5"[1..] == ""; }
  }

  /** The digits before the point may be missing. */
  lemma LeadingDotTextExample()
    ensures StringToNumber(".5") == Fin(0.5)
  {
    assert ".5"[1..] == "5" && ".5"[..0] == "";
    assert FractionValue("5") == 0.5 by { assert "5"[1..] == ""; }
  }

  /** The digits after the point may be missing. */
  lemma TrailingDotTextExample()
    ensures StringToNumber("5.") == Fin(5.0)
  {
    assert DotIndex("5.") == 1 by { assert "5."[1..] == "."; }
    assert "5."[..1] == "5" && "5."[2..] == "";
    assert DigitsValue("5") == 5 by { assert "5"[..0] == ""; }
  }

  /** A point with no digit on either side is not a number. */
  lemma LoneDotTextExample()
    ensures StringToNumber(".") == NaN
  {
    assert "."[1..] == "" && "."[..0] == "";
  }

  /** White space alone is 0; a lone sign and a second point are not numbers. */
  lemma BlankAndMalformedTextExamples()
    ensures StringToNumber("  ") == Fin(0.0)
    ensures StringToNumber("-") == NaN && StringToNumber("1.2.3") == NaN
  {
    assert TrimStart("  ") == "" by { assert "  "[1..] == " " && " "[1..] == ""; }
    assert "-"[1..] == "";
    assert DotIndex("1.2.3") == 1 by { assert "1.2.3"[1..] == ".2.3"; }
    assert "1.2.3"[2..] == "2.3" && !IsDigit("2.3"[1]);
  }

  /** An integer sale id or quantity keeps its value through `String` and back through `Number`. */
  lemma IntegerTextRoundTrip(n: real)
    requires n == n.Floor as real && -1e21 < n < 1e21
    ensures StringOf(JNum(n)).Text?
    ensures StringToNumber(StringOf(JNum(n)).s) == Fin(n)
  {
    IntTextRoundTrip(n.Floor);
  }
}
