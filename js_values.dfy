/**
 * The JavaScript values the chart front end handles: numbers with NaN and
 * the infinities, the primitive values a data item's fields can hold, the
 * coercions behind isNaN/isFinite/comparisons, truthiness and ===.
 */
module JsValues {
  import opened Wrappers

  /** An IEEE double as JavaScript sees it (negative zero is not distinguished). */
  datatype Number = NaN | Finite(v: real) | Infinity(positive: bool)

  /** A field value. Objects and arrays nested inside a data item are opaque. */
  datatype JsValue = Undefined | Null | Bool(b: bool) | Num(n: Number) | Text(s: string) | Object

  /** A data item: a plain object with named fields; a missing field reads as undefined. */
  type Item = map<string, JsValue>

  function Get(item: Item, key: string): JsValue {
    if key in item then item[key] else Undefined
  }

  // ---------------------------------------------------------------------
  // Number(s) for a string
  // ---------------------------------------------------------------------

  /** The white space Number(s) ignores around a numeric string (spaces, tabs and line breaks). */
  predicate IsSpace(c: char) {
    c == ' ' || c == '\t' || c == '\n' || c == '\r'
  }

  function TrimStart(s: string): (t: string)
    ensures |t| <= |s| && t == s[|s| - |t|..]
    ensures |t| > 0 ==> !IsSpace(t[0])
  {
    if |s| > 0 && IsSpace(s[0]) then TrimStart(s[1..]) else s
  }

  function TrimEnd(s: string): (t: string)
    ensures |t| <= |s| && t == s[..|t|]
    ensures |t| > 0 ==> !IsSpace(t[|t| - 1])
  {
    if |s| > 0 && IsSpace(s[|s| - 1]) then TrimEnd(s[..|s| - 1]) else s
  }

  /** s.trim(), for the white space above. */
  function Trim(s: string): string {
    TrimEnd(TrimStart(s))
  }

  predicate IsDigit(c: char) { '0' <= c <= '9' }

  predicate AllDigits(s: string) {
    forall i :: 0 <= i < |s| ==> IsDigit(s[i])
  }

  /** The value of a string of decimal digits (0 for the empty string). */
  function DigitsValue(s: string): nat
    requires AllDigits(s)
  {
    if |s| == 0 then 0 else 10 * DigitsValue(s[..|s| - 1]) + (s[|s| - 1] as int - '0' as int)
  }

  /** The position of the first '.', or |t| when there is none. */
  function DotIndex(t: string): (k: nat)
    ensures k <= |t| && '.' !in t[..k]
    ensures k < |t| ==> t[k] == '.'
  {
    if |t| == 0 then 0
    else if t[0] == '.' then 0
    else
      var k := 1 + DotIndex(t[1..]);
      assert t[..k] == [t[0]] + t[1..][..k - 1];
      k
  }

  /** The value of the digits after a decimal point. */
  function FractionValue(f: string): real
    requires AllDigits(f)
  {
    if |f| == 0 then 0.0 else ((f[0] as int - '0' as int) as real + FractionValue(f[1..])) / 10.0
  }

  /** An unsigned decimal literal: digits, optionally a point and more digits, with at least one digit. */
  function UnsignedValue(t: string): Option<real> {
    if '.' !in t then
      if |t| > 0 && AllDigits(t) then Some(DigitsValue(t) as real) else None
    else
      var k := DotIndex(t);
      var whole := t[..k];
      var fraction := if k < |t| then t[k + 1..] else "";
      if AllDigits(whole) && AllDigits(fraction) && |whole| + |fraction| > 0 then
        Some(DigitsValue(whole) as real + FractionValue(fraction))
      else None
  }

  /** A decimal literal with an optional sign. */
  function DecimalValue(t: string): Option<real> {
    if |t| > 0 && (t[0] == '+' || t[0] == '-') then
      match UnsignedValue(t[1..])
      case None => None
      case Some(v) => Some(if t[0] == '-' then -v else v)
    else UnsignedValue(t)
  }

  /**
   * Number(s): white space around the literal is ignored, a blank string is
   * 0, a signed decimal literal is its value, "Infinity" with an optional
   * sign is infinite, and anything else is NaN.
   */
  function StringToNumber(s: string): Number {
    var t := Trim(s);
    if t == "" then Finite(0.0)
    else if t == "Infinity" || t == "+Infinity" then Infinity(true)
    else if t == "-Infinity" then Infinity(false)
    else
      match DecimalValue(t)
      case Some(v) => Finite(v)
      case None => NaN
  }

  /**
   * What Number(s) yields: 0 for a blank string, the literal's value for a
   * decimal literal, and NaN exactly when the trimmed text is neither blank,
   * nor a signed Infinity, nor a decimal literal.
   */
  lemma StringToNumberCases(s: string)
    ensures Trim(s) == "" ==> StringToNumber(s) == Finite(0.0)
    ensures StringToNumber(s).Finite? && Trim(s) != "" ==> DecimalValue(Trim(s)) == Some(StringToNumber(s).v)
    ensures StringToNumber(s) == NaN <==>
              Trim(s) != "" && Trim(s) !in ["Infinity", "+Infinity", "-Infinity"] && DecimalValue(Trim(s)).None?
  {
  }

  /** The decimal digits of n, most significant first. */
  function NatToDecimal(n: nat): (s: string)
    ensures |s| > 0 && AllDigits(s) && '.' !in s
  {
    var d := ['0' + (n % 10) as char];
    if n < 10 then d else NatToDecimal(n / 10) + d
  }

  /** Reading back the digits of n gives n. */
  lemma {:induction false} NatToDecimalValue(n: nat)
    ensures DigitsValue(NatToDecimal(n)) == n
  {
    var s := NatToDecimal(n);
    if n >= 10 {
      NatToDecimalValue(n / 10);
      assert s[..|s| - 1] == NatToDecimal(n / 10);
    }
  }

  /** A string with no white space at either end is its own trim. */
  lemma TrimUnchanged(s: string)
    requires |s| > 0 && !IsSpace(s[0]) && !IsSpace(s[|s| - 1])
    ensures Trim(s) == s
  {
    assert TrimStart(s) == s;
  }

  /** A non-empty digit string without a point is a decimal literal worth its digits. */
  lemma DigitsAreDecimal(s: string)
    requires |s| > 0 && AllDigits(s) && '.' !in s
    ensures DecimalValue(s) == Some(DigitsValue(s) as real)
  {
    assert IsDigit(s[0]);
  }

  /** Number(String(n)) == n for a natural number n. */
  lemma NumberOfDecimal(n: nat)
    ensures StringToNumber(NatToDecimal(n)) == Finite(n as real)
  {
    var s := NatToDecimal(n);
    assert IsDigit(s[0]) && IsDigit(s[|s| - 1]);
    TrimUnchanged(s);
    NatToDecimalValue(n);
    DigitsAreDecimal(s);
    assert s != "Infinity" && s != "+Infinity" && s != "-Infinity" by {
      assert s[0] != 'I' && s[0] != '+' && s[0] != '-';
    }
  }

  /** The same for a string value: Number(String(n)) on a field holding the digits of n. */
  lemma NumberOfDigitText(s: string, n: nat)
    requires s == NatToDecimal(n)
    ensures ToNumber(Text(s)) == Finite(n as real)
  {
    NumberOfDecimal(n);
  }

  /** Number(x), as isNaN, isFinite, arithmetic and comparisons with a number apply it. */
  function ToNumber(x: JsValue): Number {
    match x
    case Undefined => NaN
    case Null => Finite(0.0)
    case Bool(b) => Finite(if b then 1.0 else 0.0)
    case Num(n) => n
    case Text(s) => StringToNumber(s)
    case Object => NaN
  }

  predicate NumberTruthy(n: Number) {
    match n
    case NaN => false
    case Finite(v) => v != 0.0
    case Infinity(_) => true
  }

  /** Boolean(x): false for undefined, null, false, 0, NaN and "". */
  predicate Truthy(x: JsValue) {
    match x
    case Undefined => false
    case Null => false
    case Bool(b) => b
    case Num(n) => NumberTruthy(n)
    case Text(s) => s != ""
    case Object => true
  }

  /** a || b */
  function Or(a: JsValue, b: JsValue): JsValue {
    if Truthy(a) then a else b
  }

  /** x === n for a number literal n. */
  predicate IsNumber(x: JsValue, n: real) {
    x == Num(Finite(n))
  }

  /** typeof x === 'number' && isFinite(x) */
  predicate IsFiniteNumber(x: JsValue) {
    x.Num? && x.n.Finite?
  }

  /** The global isFinite(x), which coerces its argument. */
  predicate GlobalIsFinite(x: JsValue) {
    ToNumber(x).Finite?
  }

  /** a < b on numbers: false when either is NaN. */
  predicate Less(a: Number, b: Number) {
    match (a, b)
    case (Finite(x), Finite(y)) => x < y
    case (Finite(_), Infinity(p)) => p
    case (Infinity(p), Finite(_)) => !p
    case (Infinity(p), Infinity(q)) => !p && q
    case _ => false
  }

  /** a <= b on numbers: false when either is NaN. */
  predicate LessEq(a: Number, b: Number) {
    Less(a, b) || (a != NaN && a == b)
  }

  /** a < b on strings: by character, a proper prefix coming first. */
  predicate StringLess(a: string, b: string) {
    if |a| == 0 then |b| > 0
    else if |b| == 0 then false
    else if a[0] != b[0] then a[0] < b[0]
    else StringLess(a[1..], b[1..])
  }

  /** a < b on two field values: two strings compare as strings, anything else as numbers. */
  predicate JsLess(a: JsValue, b: JsValue) {
    if a.Text? && b.Text? then StringLess(a.s, b.s) else Less(ToNumber(a), ToNumber(b))
  }

  /** a <= b on two field values: two strings compare as strings, anything else as numbers. */
  predicate JsLessEq(a: JsValue, b: JsValue) {
    if a.Text? && b.Text? then !StringLess(b.s, a.s) else LessEq(ToNumber(a), ToNumber(b))
  }

  function Neg(a: Number): Number {
    match a
    case NaN => NaN
    case Finite(x) => Finite(-x)
    case Infinity(p) => Infinity(!p)
  }

  function Add(a: Number, b: Number): Number {
    match (a, b)
    case (Finite(x), Finite(y)) => Finite(x + y)
    case (Infinity(p), Finite(_)) => Infinity(p)
    case (Finite(_), Infinity(q)) => Infinity(q)
    case (Infinity(p), Infinity(q)) => if p == q then Infinity(p) else NaN
    case _ => NaN
  }

  function Sub(a: Number, b: Number): Number {
    Add(a, Neg(b))
  }

  function Mul(a: Number, b: Number): Number {
    match (a, b)
    case (Finite(x), Finite(y)) => Finite(x * y)
    case (Infinity(p), Finite(y)) => if y == 0.0 then NaN else Infinity(p == (y > 0.0))
    case (Finite(x), Infinity(q)) => if x == 0.0 then NaN else Infinity(q == (x > 0.0))
    case (Infinity(p), Infinity(q)) => Infinity(p == q)
    case _ => NaN
  }

  function Div(a: Number, b: Number): Number {
    match (a, b)
    case (Finite(x), Finite(y)) =>
      if y != 0.0 then Finite(x / y) else if x == 0.0 then NaN else Infinity(x > 0.0)
    case (Infinity(p), Finite(y)) => Infinity(p == (y >= 0.0))
    case (Finite(_), Infinity(_)) => Finite(0.0)
    case _ => NaN
  }

  function Abs(a: Number): Number {
    match a
    case NaN => NaN
    case Finite(x) => Finite(if x < 0.0 then -x else x)
    case Infinity(_) => Infinity(true)
  }

  /** Math.max(a, b): NaN if either is NaN. */
  function Max(a: Number, b: Number): Number {
    if a == NaN || b == NaN then NaN else if Less(a, b) then b else a
  }

  /** Math.max(x, m) is NaN, +Infinity or a number at least m. */
  lemma MaxAtLeast(x: Number, m: real)
    ensures var r := Max(x, Finite(m));
            r == NaN || r == Infinity(true) || (r.Finite? && r.v >= m)
  {
  }

  /** Math.min(a, b): NaN if either is NaN. */
  function Min(a: Number, b: Number): Number {
    if a == NaN || b == NaN then NaN else if Less(b, a) then b else a
  }

  /** Multiplying a number by one gives it back. */
  lemma MulOne(a: Number)
    ensures Mul(a, Finite(1.0)) == a
  {
  }

  /** c * (b / c) == b, and c / c == 1, for a finite non-zero c. */
  lemma DivThenMul(b: real, c: real)
    requires c != 0.0
    ensures Mul(Finite(c), Div(Finite(b), Finite(c))) == Finite(b)
    ensures Div(Finite(c), Finite(c)) == Finite(1.0)
  {
    assert c * (b / c) == b;
    assert c / c == 1.0;
  }

  /** Finite arithmetic agrees with the reals. */
  lemma FiniteArithmetic(x: real, y: real)
    ensures Sub(Finite(x), Finite(y)) == Finite(x - y)
    ensures Less(Finite(x), Finite(y)) <==> x < y
    ensures Max(Finite(x), Finite(y)) == Finite(if x < y then y else x)
  {
  }
}
