/**
 * The slice of JavaScript's value model that the CLI's validators observe:
 * the value kinds, `typeof`, truthiness, reading a property and the own
 * enumerable properties that object spread copies. Numbers are only ever
 * type-tested or tested for truthiness, so a number is kept as a `real`.
 */
module Js {
  import opened Wrappers

  /** A JavaScript value. `Fn` is a function object made by `new Function(params..., body)`. */
  datatype JsValue =
    | Undefined
    | Null
    | Bool(b: bool)
    | Num(n: real)
    | Str(s: string)
    | Arr(elems: seq<JsValue>)
    | Obj(fields: map<string, JsValue>)
    | Fn(params: seq<string>, body: string)

  /**
   * The two engine built-ins the validators rely on and whose algorithms
   * are not modelled: `JSON.parse` (None when it throws a SyntaxError) and
   * whether `new Function(params..., body)` accepts its text (false when it
   * throws a SyntaxError).
   */
  datatype Host = Host(
    jsonParse: string -> Option<JsValue>,
    compiles: (seq<string>, string) -> bool)

  /** The value of the `typeof` operator. */
  function TypeOf(v: JsValue): string {
    match v
    case Undefined => "undefined"
    case Null => "object"
    case Bool(_) => "boolean"
    case Num(_) => "number"
    case Str(_) => "string"
    case Arr(_) => "object"
    case Obj(_) => "object"
    case Fn(_, _) => "function"
  }

  /** ToBoolean: what `if (v)` and `!v` test. */
  predicate Truthy(v: JsValue) {
    match v
    case Undefined => false
    case Null => false
    case Bool(b) => b
    case Num(n) => n != 0.0
    case Str(s) => s != ""
    case Arr(_) => true
    case Obj(_) => true
    case Fn(_, _) => true
  }

  predicate IsDigits(s: string) {
    s != [] && forall i :: 0 <= i < |s| ==> '0' <= s[i] <= '9'
  }

  /** The decimal spelling of an array index, as property keys spell it. */
  function IndexKey(n: nat): (k: string)
    ensures IsDigits(k)
  {
    if n < 10 then ["0123456789"[n]]
    else IndexKey(n / 10) + ["0123456789"[n % 10]]
  }

  /** The index properties "0", "1", ... of a list of element values. */
  function IndexProps(es: seq<JsValue>): (m: map<string, JsValue>)
    ensures forall k :: k in m ==> IsDigits(k)
  {
    if es == [] then map[]
    else IndexProps(es[..|es| - 1])[IndexKey(|es| - 1) := es[|es| - 1]]
  }

  /** The one-character strings of a string, one per index. */
  function Chars(s: string): seq<JsValue> {
    seq(|s|, i requires 0 <= i < |s| => Str([s[i]]))
  }

  /**
   * The own enumerable string-keyed properties of a value: what
   * `{...v}` copies. Primitives other than strings, null and undefined
   * contribute nothing; a function made by `new Function` has only
   * non-enumerable own properties.
   */
  function OwnEnumerable(v: JsValue): map<string, JsValue> {
    match v
    case Obj(m) => m
    case Arr(es) => IndexProps(es)
    case Str(s) => IndexProps(Chars(s))
    case _ => map[]
  }

  function Lookup(m: map<string, JsValue>, key: string): JsValue {
    if key in m then m[key] else Undefined
  }

  /**
   * Reading `v[key]`: None when the read throws a TypeError (the receiver
   * is null or undefined). Properties inherited from a prototype are not
   * modelled; none of the keys the validators read is one.
   */
  function Get(v: JsValue, key: string): Option<JsValue> {
    match v
    case Undefined => None
    case Null => None
    case Arr(es) => Some(if key == "length" then Num(|es| as real) else Lookup(OwnEnumerable(v), key))
    case Str(s) => Some(if key == "length" then Num(|s| as real) else Lookup(OwnEnumerable(v), key))
    case Fn(ps, _) =>
      Some(if key == "length" then Num(|ps| as real) else if key == "name" then Str("anonymous") else Undefined)
    case Obj(m) => Some(Lookup(m, key))
    case _ => Some(Undefined)
  }

  /** A key that names no built-in own property: not an index, not `length`, not `name`. */
  predicate IsNamedKey(key: string) {
    !IsDigits(key) && key != "length" && key != "name"
  }

  /** Reading a named key finds a plain object's field, undefined on every other non-nullish value. */
  lemma GetNamedKey(v: JsValue, key: string)
    requires IsNamedKey(key)
    ensures Get(v, key) ==
      if v.Undefined? || v.Null? then None
      else if v.Obj? then Some(Lookup(v.fields, key))
      else Some(Undefined)
  {
  }
}
