/**
 * Parsed JSON as JavaScript sees it, with the three JavaScript rules the
 * normalisers are built from: truthiness, `a || b` (the first truthy operand,
 * else the last), and property reads (`o.k`, which throws on `null` and
 * `undefined`, and `o?.k`, which gives `undefined` there).
 */
module Js {
  import opened Wrappers
  import Strings

  /** Numbers are modelled as integers. */
  datatype JsValue =
    | Undefined
    | Null
    | Bool(b: bool)
    | Num(n: int)
    | Str(s: string)
    | Arr(items: seq<JsValue>)
    | Obj(fields: map<string, JsValue>)

  predicate Truthy(v: JsValue)
  {
    match v
    case Undefined => false
    case Null => false
    case Bool(b) => b
    case Num(n) => n != 0
    case Str(s) => s != ""
    case Arr(_) => true
    case Obj(_) => true
  }

  predicate IsNullish(v: JsValue)
  {
    v.Undefined? || v.Null?
  }

  /** `a || b`. */
  function Or(a: JsValue, b: JsValue): (r: JsValue)
    ensures Truthy(a) ==> r == a
    ensures !Truthy(a) ==> r == b
    ensures Truthy(r) <==> Truthy(a) || Truthy(b)
  {
    if Truthy(a) then a else b
  }

  /**
   * `(a || b) || c` and `a || (b || c)` pick the same operand: the first
   * truthy one of the three, else the last.
   */
  lemma OrAssociative(a: JsValue, b: JsValue, c: JsValue)
    ensures Or(Or(a, b), c) == Or(a, Or(b, c))
    ensures Or(Or(a, b), c) == if Truthy(a) then a else if Truthy(b) then b else c
  {
  }

  /** `o?.k`: the field when `o` is an object that has it, `undefined` otherwise. */
  function Get(o: JsValue, k: string): JsValue
  {
    if o.Obj? && k in o.fields then o.fields[k] else Undefined
  }

  /** `String(v)` (a string stays itself, `null` and `undefined` inside an array print as nothing). */
  function ToJsString(v: JsValue): string
  {
    match v
    case Undefined => "undefined"
    case Null => "null"
    case Bool(b) => if b then "true" else "false"
    case Num(n) => Strings.IntString(n)
    case Str(s) => s
    case Obj(_) => "[object Object]"
    case Arr(items) =>
      Strings.Join(seq(|items|, i requires 0 <= i < |items| =>
        if IsNullish(items[i]) then "" else ToJsString(items[i])), ",")
  }
}
