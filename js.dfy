/**
 * The JavaScript values the loader manipulates: the parsed bundle config,
 * the webpack loader options, and the option object handed to the font
 * generator are all plain JS objects, modelled as maps from property name
 * to a small value datatype.
 */
module Js {

  datatype Option<+T> = None | Some(value: T)

  /** A JS value, as far as the loader inspects it. Numbers are integers here. */
  datatype Value =
    | Undefined
    | Null
    | Bool(b: bool)
    | Num(n: int)
    | Str(s: string)
    | List(items: seq<Value>)
    | Obj(fields: map<string, Value>)
    | Func(source: string)  // a user function, known only by its source text

  /** A plain JS object: own enumerable properties, by name. */
  type Config = map<string, Value>

  /** `obj.key`: a missing property reads as `undefined`. */
  function Get(c: Config, key: string): Value
  {
    if key in c then c[key] else Undefined
  }

  /** JS truthiness (`undefined`, `null`, `false`, `0` and `''` are falsy). */
  predicate Truthy(v: Value)
  {
    match v
    case Undefined => false
    case Null => false
    case Bool(b) => b
    case Num(n) => n != 0
    case Str(s) => s != ""
    case List(_) => true
    case Obj(_) => true
    case Func(_) => true
  }

  /** `a || b`: the first operand if it is truthy, otherwise the second. */
  function Or(a: Value, b: Value): (r: Value)
    ensures Truthy(r) <==> Truthy(a) || Truthy(b)
    ensures Truthy(a) ==> r == a
    ensures !Truthy(a) ==> r == b
  {
    if Truthy(a) then a else b
  }

  function DigitChar(d: nat): (c: char)
    requires d < 10
    ensures '0' <= c <= '9'
  {
    "0123456789"[d]
  }

  /** Decimal notation of a natural number, as `String(n)` prints it. */
  function NatToString(n: nat): (r: string)
    ensures |r| >= 1
    ensures forall i :: 0 <= i < |r| ==> '0' <= r[i] <= '9'
    ensures n >= 10 ==> r[0] != '0'
  {
    if n < 10 then [DigitChar(n)] else NatToString(n / 10) + [DigitChar(n % 10)]
  }

  function NumberToString(n: int): (r: string)
    ensures |r| >= 1
    ensures (r[0] == '-') <==> n < 0
  {
    if n < 0 then "-" + NatToString(-n) else NatToString(n)
  }

  /**
   * `String(v)`: what string concatenation and `String.prototype.replace`
   * turn a value into. Arrays print as their elements joined by commas,
   * with `undefined` and `null` elements printed as empty strings.
   */
  function ToJsString(v: Value): (r: string)
    decreases v, 1
  {
    match v
    case Undefined => "undefined"
    case Null => "null"
    case Bool(b) => if b then "true" else "false"
    case Num(n) => NumberToString(n)
    case Str(s) => s
    case List(items) => JoinFrom(v, 0)
    case Obj(_) => "[object Object]"
    case Func(source) => source
  }

  /** `items.slice(i).join(',')` for the list `v`. */
  function JoinFrom(v: Value, i: nat): string
    requires v.List? && i <= |v.items|
    decreases v, 0, |v.items| - i
  {
    if i == |v.items| then ""
    else
      var item := v.items[i];
      var head := if item.Undefined? || item.Null? then "" else ToJsString(item);
      if i + 1 == |v.items| then head else head + "," + JoinFrom(v, i + 1)
  }
}
