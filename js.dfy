/** JavaScript values and the few operations on them that the adapter relies on:
    truthiness, `||`, property reads (plain `.` and optional `?.`), indexing,
    property writes in strict mode, and `===`. A throwing expression is modelled
    by the `Throw` completion. */
module Js {

  datatype Option<+T> = None | Some(value: T)

  /** The outcome of evaluating JavaScript: a normal value, or a thrown
      TypeError (the only kind of exception the adapter's own code can raise). */
  datatype Completion<+T> = Normal(value: T) | Throw {

    predicate IsFailure() {
      Throw?
    }

    function PropagateFailure<U>(): Completion<U>
      requires Throw?
    {
      Throw
    }

    function Extract(): T
      requires Normal?
    {
      value
    }
  }

  /** A JavaScript value. Numbers are finite reals: NaN, the infinities and
      negative zero are not represented. Objects are maps from property names
      to values; arrays are sequences. */
  datatype JsVal =
    | Undefined
    | Null
    | Bool(b: bool)
    | Num(n: real)
    | Str(s: string)
    | Arr(items: seq<JsVal>)
    | Obj(props: map<string, JsVal>)

  predicate IsNullish(v: JsVal) {
    v.Undefined? || v.Null?
  }

  predicate IsPrimitive(v: JsVal) {
    !v.Arr? && !v.Obj?
  }

  /** `!!v` */
  predicate Truthy(v: JsVal) {
    match v
    case Undefined => false
    case Null => false
    case Bool(b) => b
    case Num(n) => n != 0.0
    case Str(s) => s != ""
    case Arr(_) => true
    case Obj(_) => true
  }

  /** `a || b`: the first operand when it is truthy, the second otherwise. */
  function Or(a: JsVal, b: JsVal): JsVal {
    if Truthy(a) then a else b
  }

  /** `v?.key`, and `v.key` for a `v` that is not nullish. None of the property
      names the adapter reads exists on strings, arrays or the object
      prototype, so only an object's own properties are looked up. */
  function Get(v: JsVal, key: string): JsVal {
    if v.Obj? && key in v.props then v.props[key] else Undefined
  }

  /** `v.key`: throws a TypeError when `v` is undefined or null. */
  function Read(v: JsVal, key: string): Completion<JsVal> {
    if IsNullish(v) then Throw else Normal(Get(v, key))
  }

  /** The property name `String(i)` under which an object stores index i. */
  function DecimalKey(i: nat): string {
    if i < 10 then ["0123456789"[i]] else DecimalKey(i / 10) + ["0123456789"[i % 10]]
  }

  /** `v[i]` for a `v` that is not nullish. */
  function Index(v: JsVal, i: nat): JsVal {
    match v
    case Arr(items) => if i < |items| then items[i] else Undefined
    case Str(s) => if i < |s| then Str([s[i]]) else Undefined
    case Obj(_) => Get(v, DecimalKey(i))
    case _ => Undefined
  }

  /** `v[i]`: throws a TypeError when `v` is undefined or null. */
  function ReadIndex(v: JsVal, i: nat): Completion<JsVal> {
    if IsNullish(v) then Throw else Normal(Index(v, i))
  }

  /** `v.key = x` in strict-mode code. Writing a property of undefined, null or
      any other primitive throws. An array accepts the write, but the model
      does not represent the own properties of arrays, so it is unchanged. */
  function Write(v: JsVal, key: string, x: JsVal): Completion<JsVal> {
    match v
    case Obj(props) => Normal(Obj(props[key := x]))
    case Arr(_) => Normal(v)
    case _ => Throw
  }

  /** `a === b` for two values that do not share an object: the adapter only
      compares values taken from a freshly parsed JSON document with values
      of the server's response, so two objects or arrays are never the same
      reference. Primitives compare by value. */
  predicate StrictEquals(a: JsVal, b: JsVal) {
    IsPrimitive(a) && a == b
  }
}
