/**
  The part of JavaScript's value semantics that the HTTP service relies on:
  values as JSON and option objects carry them, truthiness (`a ? b : c`,
  `a || b`, `a && b`), reading a property, object spread (`{...a}`) and the
  text a template literal (`${a}`) produces.
 */
module Js {

  datatype Option<+T> = None | Some(value: T)

  /** A JavaScript value. Numbers are restricted to the integers. */
  datatype JsValue =
    | Undefined
    | Null
    | Bool(b: bool)
    | Num(n: int)
    | Str(s: string)
    | Arr(elems: seq<JsValue>)
    | Obj(props: map<string, JsValue>)

  /** `undefined` and `null`: the values whose properties cannot be read. */
  predicate IsNullish(v: JsValue) {
    v.Undefined? || v.Null?
  }

  /** JavaScript's ToBoolean. */
  predicate Truthy(v: JsValue) {
    match v
    case Undefined => false
    case Null => false
    case Bool(b) => b
    case Num(n) => n != 0
    case Str(s) => s != ""
    case Arr(_) => true
    case Obj(_) => true
  }

  /**
    `v[key]` for a value that is not nullish: an own property of an object,
    and `undefined` for a key it does not have. None stands for the
    TypeError that reading a property of `undefined` or `null` throws.
   */
  function Property(v: JsValue, key: string): (r: Option<JsValue>)
    ensures r.None? <==> IsNullish(v)
    ensures v.Obj? && key in v.props ==> r == Some(v.props[key])
    ensures v.Obj? && key !in v.props ==> r == Some(Undefined)
  {
    match v
    case Undefined => None
    case Null => None
    case Obj(m) => Some(if key in m then m[key] else Undefined)
    case _ => Some(Undefined)
  }

  /** The own properties `{...v}` copies: every property of an object, none of anything else. */
  function Spread(v: JsValue): (m: map<string, JsValue>)
    ensures v.Obj? ==> m == v.props
    ensures !v.Obj? && !v.Str? && !v.Arr? ==> m == map[]
  {
    if v.Obj? then v.props else map[]
  }

  /** `({...v}).key`: the value `key` has in a spread copy of `v`, `undefined` when the copy lacks it. */
  function Field(v: JsValue, key: string): JsValue {
    if key in Spread(v) then Spread(v)[key] else Undefined
  }

  /** The number a string of decimal digits denotes, most significant digit first. */
  function DigitsValue(s: string): int {
    if s == [] then 0 else DigitsValue(s[..|s| - 1]) * 10 + (s[|s| - 1] as int - '0' as int)
  }

  /** The decimal numeral of a natural number: digits only, no leading zero, denoting `n`. */
  function DecimalText(n: nat): (r: string)
    ensures |r| > 0
    ensures forall i :: 0 <= i < |r| ==> '0' <= r[i] <= '9'
    ensures |r| > 1 ==> r[0] != '0'
    ensures DigitsValue(r) == n
  {
    var digit := [('0' as int + n % 10) as char];
    if n < 10 then digit
    else
      var prefix := DecimalText(n / 10);
      assert (prefix + digit)[..|prefix|] == prefix;
      prefix + digit
  }

  /** The text `${v}` produces (ToString). */
  function ToText(v: JsValue): string
    decreases v, 1
  {
    match v
    case Undefined => "undefined"
    case Null => "null"
    case Bool(b) => if b then "true" else "false"
    case Num(n) => if n < 0 then "-" + DecimalText(-n) else DecimalText(n)
    case Str(s) => s
    case Arr(es) => JoinText(es)
    case Obj(_) => "[object Object]"
  }

  /** Array.prototype.join(","): `undefined` and `null` elements become empty. */
  function JoinText(es: seq<JsValue>): string
    decreases es, 0
  {
    if es == [] then ""
    else
      var first := if IsNullish(es[0]) then "" else ToText(es[0]);
      if |es| == 1 then first else first + "," + JoinText(es[1..])
  }
}
