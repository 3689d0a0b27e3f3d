/** JavaScript values as the invoice code sees them: the loosely typed record
    handed around as `any`, JavaScript truthiness, `||` and `??`, property reads,
    and the `Number(..)` and template-literal conversions. */
module JsValues {

  datatype Option<+T> = None | Some(value: T)

  datatype Result<+T, +E> = Ok(value: T) | Err(error: E)

  /** A JavaScript value. Numbers are exact reals; NaN is its own case, and
      Infinity and negative zero are not modelled. Objects are plain data
      records (no methods, no prototype properties). */
  datatype JsValue =
    | Undefined
    | Null
    | Bool(b: bool)
    | Num(n: real)
    | NaN
    | Str(s: string)
    | Arr(elems: seq<JsValue>)
    | Obj(props: map<string, JsValue>)

  /** The host runtime's number conversions, which the model leaves abstract:
      `Number(s)` on a string (None stands for NaN), `String(n)` on a number,
      and `n.toFixed(2)`. */
  datatype Host = Host(
    parse: string -> Option<real>,
    show: real -> string,
    fixed2: real -> string)

  /** A record keyed by field name, like the `Record<string, any>` the wizard
      accumulates. An absent key reads as `undefined`. */
  type Record = map<string, JsValue>

  function Get(rec: Record, key: string): JsValue {
    if key in rec then rec[key] else Undefined
  }

  /** `null` or `undefined`: the values that `??` replaces and whose
      properties cannot be read. */
  predicate Nullish(v: JsValue) {
    v.Undefined? || v.Null?
  }

  /** JavaScript truthiness: undefined, null, false, 0, NaN and "" are falsy. */
  predicate Truthy(v: JsValue) {
    match v
    case Undefined => false
    case Null => false
    case Bool(b) => b
    case Num(n) => n != 0.0
    case NaN => false
    case Str(s) => s != ""
    case Arr(_) => true
    case Obj(_) => true
  }

  /** `a || b` */
  function Or(a: JsValue, b: JsValue): (r: JsValue)
    ensures Truthy(r) <==> Truthy(a) || Truthy(b)
  {
    if Truthy(a) then a else b
  }

  /** `a ?? b` */
  function Coalesce(a: JsValue, b: JsValue): (r: JsValue)
    ensures Nullish(r) <==> Nullish(a) && Nullish(b)
  {
    if Nullish(a) then b else a
  }

  /** `v.key` on a value whose properties can be read. Only own data keys of
      plain objects are modelled; every other value has no such property. */
  function Prop(v: JsValue, key: string): (r: JsValue)
    requires !Nullish(v)
    ensures r != Undefined ==> v.Obj? && key in v.props && r == v.props[key]
  {
    if v.Obj? then Get(v.props, key) else Undefined
  }

  /** `String(v)`, also what `${v}` in a template literal produces. Arrays are
      joined with "," and their null or undefined elements print as "". */
  function ToString(v: JsValue, host: Host): string
    decreases v, 1, 0
  {
    match v
    case Undefined => "undefined"
    case Null => "null"
    case Bool(b) => if b then "true" else "false"
    case Num(n) => host.show(n)
    case NaN => "NaN"
    case Str(s) => s
    case Arr(elems) => Join(v, elems, host)
    case Obj(_) => "[object Object]"
  }

  function Join(parent: JsValue, elems: seq<JsValue>, host: Host): string
    requires forall e | e in elems :: e < parent
    decreases parent, 0, |elems|
  {
    if elems == [] then ""
    else
      assert elems[0] in elems;
      assert forall e | e in elems[1..] :: e in elems;
      var head := if Nullish(elems[0]) then "" else ToString(elems[0], host);
      if |elems| == 1 then head else head + "," + Join(parent, elems[1..], host)
  }

  /** `Number(v)`; None stands for NaN. Arrays and objects convert through
      their string form. */
  function ToNumber(v: JsValue, host: Host): Option<real> {
    match v
    case Undefined => None
    case Null => Some(0.0)
    case Bool(b) => Some(if b then 1.0 else 0.0)
    case Num(n) => Some(n)
    case NaN => None
    case Str(s) => host.parse(s)
    case Arr(_) => host.parse(ToString(v, host))
    case Obj(_) => host.parse(ToString(v, host))
  }

  /** The number `Number(v)` produces, as a JavaScript value. */
  function NumberValue(n: Option<real>): JsValue {
    match n
    case None => NaN
    case Some(x) => Num(x)
  }

  /** `Number(v) || 0`: NaN, and every operand that converts to NaN, becomes 0. */
  function NumberOrZero(v: JsValue, host: Host): (r: real)
    ensures Or(NumberValue(ToNumber(v, host)), Num(0.0)) == Num(r)
    ensures v.Undefined? || v.NaN? || v.Null? ==> r == 0.0
    ensures v.Num? ==> r == v.n
    ensures v.Str? && host.parse(v.s).None? ==> r == 0.0
  {
    match ToNumber(v, host)
    case None => 0.0
    case Some(n) => n
  }
}
