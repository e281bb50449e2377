/**
  The slice of JavaScript value semantics that the login core relies on:
  the values a JSON profile and a session can hold, truthiness (used by
  every `&&` guard), own-property reads and sloppy-mode property writes,
  and ToString, which JavaScript also applies to an array index such as
  `users[user.id]`.
 */
module JsValue {

  /** A JavaScript value as produced by JSON parsing or held in a session.
      Numbers are integers; arrays are not modelled. */
  datatype Value =
    | Undefined
    | Null
    | Bool(b: bool)
    | Num(n: int)
    | Str(s: string)
    | Obj(props: map<string, Value>)

  /** `null` and `undefined`: reading or writing a property of one throws. */
  predicate IsNullish(v: Value) {
    v.Undefined? || v.Null?
  }

  /** JavaScript truthiness: `undefined`, `null`, `false`, `0` and `""` are
      falsy; every other value, every object included, is truthy. */
  predicate Truthy(v: Value) {
    match v
    case Undefined => false
    case Null => false
    case Bool(b) => b
    case Num(n) => n != 0
    case Str(s) => s != ""
    case Obj(_) => true
  }

  /** `v[key]` for a value that is not nullish. Only own properties are
      modelled; none of the fixed keys this core reads is a property of a
      built-in prototype, so a missing key reads as `undefined`. */
  function Prop(v: Value, key: string): Value
    requires !IsNullish(v)
  {
    if v.Obj? && key in v.props then v.props[key] else Undefined
  }

  /** The value that `v` denotes after `v[key] = x` in sloppy mode: an object
      gains or overwrites the property; an assignment to a property of a
      primitive is silently ignored. */
  function SetProp(v: Value, key: string, x: Value): (r: Value)
    requires !IsNullish(v)
    ensures !IsNullish(r) && (r.Obj? <==> v.Obj?)
    ensures r.Obj? ==> r.props.Keys == v.props.Keys + {key}
    ensures !v.Obj? ==> r == v
    ensures v.Obj? ==> Prop(r, key) == x
    ensures forall k :: k != key ==> Prop(r, k) == Prop(v, k)
  {
    if v.Obj? then Obj(v.props[key := x]) else v
  }

  /** JavaScript ToString, as used by `+` on a string and by a property key. */
  function ToStr(v: Value): string {
    match v
    case Undefined => "undefined"
    case Null => "null"
    case Bool(b) => if b then "true" else "false"
    case Num(n) => IntToString(n)
    case Str(s) => s
    case Obj(_) => "[object Object]"
  }

  predicate IsDigit(c: char) {
    '0' <= c <= '9'
  }

  function DigitChar(d: nat): (c: char)
    requires d < 10
    ensures IsDigit(c)
  {
    (48 + d) as char
  }

  function DigitValue(c: char): (d: nat)
    requires IsDigit(c)
    ensures d < 10 && DigitChar(d) == c
  {
    (c as int - 48) as nat
  }

  /** The decimal numeral of `n`: digits only, never empty, and without a
      leading zero unless `n` is zero itself. */
  function Digits(n: nat): (r: string)
    ensures |r| > 0
    ensures forall i :: 0 <= i < |r| ==> IsDigit(r[i])
    ensures (|r| == 1) == (n < 10)
    ensures r[0] == '0' ==> n == 0
  {
    if n < 10 then [DigitChar(n)] else Digits(n / 10) + [DigitChar(n % 10)]
  }

  /** The number a string of decimal digits denotes; the inverse of Digits. */
  function ParseDigits(s: string): nat
    requires forall i :: 0 <= i < |s| ==> IsDigit(s[i])
  {
    if s == [] then 0
    else ParseDigits(s[..|s| - 1]) * 10 + DigitValue(s[|s| - 1])
  }

  /** String(n) for an integer `n`. */
  function IntToString(n: int): string {
    if n < 0 then "-" + Digits(-n) else Digits(n)
  }

  /** Reading a numeral back gives the number it was rendered from. */
  lemma {:induction false} ParseDigitsOfDigits(n: nat)
    ensures ParseDigits(Digits(n)) == n
  {
    var s := Digits(n);
    if n < 10 {
      assert s[..0] == [];
    } else {
      var front := Digits(n / 10);
      assert s[..|s| - 1] == front;
      assert s[|s| - 1] == DigitChar(n % 10);
      ParseDigitsOfDigits(n / 10);
    }
  }

  /** Distinct naturals have distinct numerals. */
  lemma DigitsInjective(a: nat, b: nat)
    requires a != b
    ensures Digits(a) != Digits(b)
  {
    ParseDigitsOfDigits(a);
    ParseDigitsOfDigits(b);
  }

  /** A negative number's rendering is a minus sign before its magnitude's
      numeral; any other number's rendering starts with a digit. */
  lemma IntToStringShape(n: int)
    ensures n < 0 ==> |IntToString(n)| > 1 && IntToString(n)[0] == '-'
                      && IntToString(n)[1..] == Digits(-n)
    ensures n >= 0 ==> IntToString(n) == Digits(n) && IsDigit(IntToString(n)[0])
  {
  }

  /** Distinct integers have distinct decimal renderings, so distinct
      numeric ids select distinct array slots. */
  lemma IntToStringInjective(a: int, b: int)
    requires a != b
    ensures IntToString(a) != IntToString(b)
  {
    IntToStringShape(a);
    IntToStringShape(b);
    if a < 0 && b < 0 {
      DigitsInjective(-a, -b);
    } else if a >= 0 && b >= 0 {
      DigitsInjective(a, b);
    }
  }
}
