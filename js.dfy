/** The JavaScript values the CRM code passes around, with the few language
    operations it relies on: property reads, truthiness, `||`, `===`,
    `parseInt` and `parseFloat`. */
module Js {
  import opened Text

  datatype Option<+T> = None | Some(value: T)

  /** A JavaScript value. Numbers are exact reals (no IEEE rounding); `NaN`
      is kept apart because `parseInt` and `parseFloat` produce it. An object
      is the finite map of its own properties. */
  datatype Value =
    | Undefined
    | Null
    | Bool(b: bool)
    | Num(n: real)
    | NaN
    | Str(s: string)
    | Object(fields: map<string, Value>)

  /** A plain record, as sent to or received from the record store. */
  type Obj = map<string, Value>

  /** `o.key`: a key that is absent reads as `undefined`. */
  function Get(o: Obj, key: string): Value {
    if key in o then o[key] else Undefined
  }

  /** `v?.key` on a value that is a record, `undefined` on anything else. */
  function Prop(v: Value, key: string): Value {
    if v.Object? then Get(v.fields, key) else Undefined
  }

  /** JavaScript truthiness. */
  predicate Truthy(v: Value) {
    match v
    case Undefined => false
    case Null => false
    case NaN => false
    case Bool(b) => b
    case Num(n) => n != 0.0
    case Str(s) => s != ""
    case Object(_) => true
  }

  /** `a || b`: the first operand when it is truthy, the second otherwise. */
  function Or(a: Value, b: Value): Value {
    if Truthy(a) then a else b
  }

  /** `a === b`. `NaN` equals nothing; records are compared by content. */
  predicate StrictEquals(a: Value, b: Value) {
    a == b && !a.NaN?
  }

  /** The value a string-typed form field holds: the text itself, "" for anything else. */
  function TextOf(v: Value): string {
    if v.Str? then v.s else ""
  }

  // ---------------------------------------------------------------------------
  // parseInt and parseFloat

  /** The digit a character stands for in bases up to 36, or -1. */
  function DigitOf(c: char): (d: int)
    ensures -1 <= d < 36
  {
    if '0' <= c <= '9' then c as int - '0' as int
    else if 'a' <= c <= 'z' then c as int - 'a' as int + 10
    else if 'A' <= c <= 'Z' then c as int - 'A' as int + 10
    else -1
  }

  predicate IsDigit(c: char, radix: nat) {
    0 <= DigitOf(c) < radix
  }

  /** The longest prefix of `s` made of digits in `radix`. */
  function DigitRun(s: string, radix: nat): (r: string)
    ensures |r| <= |s| && r == s[..|r|]
    ensures forall i :: 0 <= i < |r| ==> IsDigit(r[i], radix)
    ensures |r| < |s| ==> !IsDigit(s[|r|], radix)
  {
    if s != [] && IsDigit(s[0], radix) then [s[0]] + DigitRun(s[1..], radix) else []
  }

  /** The number a string of digits denotes in `radix`, most significant first. */
  function DigitsValue(ds: string, radix: nat): int {
    if ds == [] then 0 else DigitsValue(ds[..|ds| - 1], radix) * radix + DigitOf(ds[|ds| - 1])
  }

  /** `parseInt(s)` with no radix: leading whitespace, an optional sign, then
      hexadecimal digits after `0x`/`0X` or decimal digits otherwise, read up
      to the first character that is not a digit. `None` stands for `NaN`. */
  function ParseIntText(s: string): Option<int> {
    var t := TrimStart(s);
    if t != [] && t[0] == '-' then Negate(ParseMagnitude(t[1..]))
    else if t != [] && t[0] == '+' then ParseMagnitude(t[1..])
    else ParseMagnitude(t)
  }

  function Negate(k: Option<int>): Option<int> {
    if k.Some? then Some(-k.value) else None
  }

  /** The unsigned part of `parseInt`: hexadecimal after `0x`, decimal otherwise. */
  function ParseMagnitude(u: string): Option<int> {
    if |u| >= 2 && u[0] == '0' && (u[1] == 'x' || u[1] == 'X') then LeadingNumber(u[2..], 16)
    else LeadingNumber(u, 10)
  }

  /** The value of the digits `u` starts with, `None` when it starts with none. */
  function LeadingNumber(u: string, radix: nat): Option<int> {
    var ds := DigitRun(u, radix);
    if ds == [] then None else Some(DigitsValue(ds, radix))
  }

  /** Rounding toward zero, which is what `parseInt` does to a number. */
  function Truncate(x: real): int {
    if x >= 0.0 then x.Floor else -((-x).Floor)
  }

  /** `parseInt(v)`: strings are parsed, numbers truncated; `undefined`,
      `null`, booleans and records print as text without digits, so they give `NaN`. */
  function ParseInt(v: Value): Option<int> {
    match v
    case Str(s) => ParseIntText(s)
    case Num(n) => Some(Truncate(n))
    case _ => None
  }

  /** The number `parseInt(v)` evaluates to. */
  function ParsedInt(v: Value): (r: Value)
    ensures r.Num? || r.NaN?
    ensures r.NaN? <==> ParseInt(v).None?
  {
    match ParseInt(v)
    case Some(k) => Num(k as real)
    case None => NaN
  }

  function Pow10(k: nat): (p: nat)
    ensures p >= 1
  {
    if k == 0 then 1 else 10 * Pow10(k - 1)
  }

  /** `parseFloat(s)` for decimal notation: leading whitespace, an optional
      sign, digits with an optional fraction; at least one digit is needed. */
  function ParseFloatText(s: string): Option<real> {
    var t := TrimStart(s);
    var negative := t != [] && t[0] == '-';
    var u := if t != [] && (t[0] == '-' || t[0] == '+') then t[1..] else t;
    var whole := DigitRun(u, 10);
    var rest := u[|whole|..];
    var frac := if rest != [] && rest[0] == '.' then DigitRun(rest[1..], 10) else [];
    var magnitude := DigitsValue(whole, 10) as real + DigitsValue(frac, 10) as real / Pow10(|frac|) as real;
    if whole == [] && frac == [] then None
    else Some(if negative then -magnitude else magnitude)
  }

  /** `parseFloat(v)`: strings are parsed, numbers kept, everything else is `NaN`. */
  function ParseFloat(v: Value): Option<real> {
    match v
    case Str(s) => ParseFloatText(s)
    case Num(n) => Some(n)
    case _ => None
  }

  /** The number `parseFloat(v)` evaluates to. */
  function ParsedFloat(v: Value): (r: Value)
    ensures r.Num? || r.NaN?
    ensures r.NaN? <==> ParseFloat(v).None?
  {
    match ParseFloat(v)
    case Some(x) => Num(x)
    case None => NaN
  }

  // ---------------------------------------------------------------------------
  // Decimal text of an integer, the form in which record ids reach the UI's
  // select boxes and come back to `parseInt`.

  function DigitChar(d: nat): (c: char)
    requires d < 10
    ensures IsDigit(c, 10) && DigitOf(c) == d
  {
    ('0' as int + d) as char
  }

  /** The decimal digits of a natural number, most significant first. */
  function Digits(n: nat): (r: string)
    ensures |r| >= 1
    ensures forall i :: 0 <= i < |r| ==> IsDigit(r[i], 10)
    ensures DigitsValue(r, 10) == n
  {
    if n < 10 then [DigitChar(n)]
    else
      var r := Digits(n / 10) + [DigitChar(n % 10)];
      assert r[..|r| - 1] == Digits(n / 10);
      r
  }

  /** `String(n)` for an integer. */
  function DecimalText(n: int): string {
    if n < 0 then "-" + Digits(-n) else Digits(n)
  }

  /** `parseInt` reads back the decimal text of every integer, so an id that
      went through a form field as text is the same number again. */
  lemma ParseIntOfDecimal(n: int)
    ensures ParseIntText(DecimalText(n)) == Some(n)
  {
    if n < 0 {
      var ds := Digits(-n);
      var s := ['-'] + ds;
      assert DecimalText(n) == s;
      NoLeadingSpace(s);
      assert TrimStart(s)[1..] == ds;
      MagnitudeOfDigits(ds);
      assert ParseIntText(s) == Negate(ParseMagnitude(ds));
    } else {
      DigitsParse(Digits(n));
    }
  }

  /** A run of decimal digits reads back as its value. */
  lemma DigitsParse(ds: string)
    requires |ds| >= 1 && forall i :: 0 <= i < |ds| ==> IsDigit(ds[i], 10)
    ensures ParseIntText(ds) == Some(DigitsValue(ds, 10))
  {
    DecimalDigit(ds[0]);
    NoLeadingSpace(ds);
    assert ParseIntText(ds) == ParseMagnitude(ds);
    MagnitudeOfDigits(ds);
  }

  /** A decimal digit is one of '0' to '9', so neither a space nor a sign. */
  lemma DecimalDigit(c: char)
    requires IsDigit(c, 10)
    ensures '0' <= c <= '9' && !IsSpace(c)
  {
  }

  /** `TrimStart` leaves a string that starts with a non-space alone. */
  lemma NoLeadingSpace(s: string)
    requires s != [] && !IsSpace(s[0])
    ensures TrimStart(s) == s
  {
  }

  /** A run of decimal digits parses to its value. */
  lemma MagnitudeOfDigits(ds: string)
    requires |ds| >= 1 && forall i :: 0 <= i < |ds| ==> IsDigit(ds[i], 10)
    ensures ParseMagnitude(ds) == Some(DigitsValue(ds, 10))
  {
    assert |ds| >= 2 ==> IsDigit(ds[1], 10);
    DigitRunOfDigits(ds);
  }

  lemma {:induction false} DigitRunOfDigits(ds: string)
    requires forall i :: 0 <= i < |ds| ==> IsDigit(ds[i], 10)
    ensures DigitRun(ds, 10) == ds
  {
    if ds != [] {
      DigitRunOfDigits(ds[1..]);
    }
  }
}
