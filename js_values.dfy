/**
 * JavaScript values as the front-end code sees them (decoded JSON, form
 * state), with the three operators the client code leans on: truthiness,
 * `a || b`, and property access with `.` and `?.`.
 */
module JsValues {
  import opened Wrappers

  /** Numbers are modelled as integers; NaN and fractions are not represented. */
  datatype JsValue =
    | Undefined
    | Null
    | Bool(b: bool)
    | Num(n: int)
    | Str(s: string)
    | Arr(elems: seq<JsValue>)
    | Obj(props: map<string, JsValue>)

  /** Raised by `v.key` when `v` is null or undefined. */
  datatype TypeError = TypeError

  /** JavaScript truthiness: undefined, null, false, 0 and "" are falsy. */
  predicate Truthy(v: JsValue) {
    match v
    case Undefined => false
    case Null => false
    case Bool(b) => b
    case Num(n) => n != 0
    case Str(s) => s != ""
    case Arr(_) => true
    case Obj(_) => true
  }

  predicate Nullish(v: JsValue) {
    v == Undefined || v == Null
  }

  /** `a || b` evaluates to its first truthy operand, or to `b` when there is none. */
  function Or(a: JsValue, b: JsValue): (r: JsValue)
    ensures Truthy(r) <==> Truthy(a) || Truthy(b)
    ensures Truthy(a) ==> r == a
    ensures !Truthy(a) ==> r == b
  {
    if Truthy(a) then a else b
  }

  /**
   * `v?.key`: the own property of an object, and undefined for anything else.
   * The property names the client reads (message, error, first_name, ...)
   * are on no built-in prototype, so primitives and arrays give undefined.
   */
  function OptionalMember(v: JsValue, key: string): (r: JsValue)
    ensures r != Undefined ==> v.Obj? && key in v.props && r == v.props[key]
    ensures v.Obj? && key in v.props ==> r == v.props[key]
  {
    if v.Obj? && key in v.props then v.props[key] else Undefined
  }

  /** `v.key`: like `v?.key`, except that null and undefined throw a TypeError. */
  function Member(v: JsValue, key: string): (r: Result<JsValue, TypeError>)
    ensures r.Failure? <==> Nullish(v)
    ensures r.Success? ==> r.value == OptionalMember(v, key)
  {
    if Nullish(v) then Failure(TypeError) else Success(OptionalMember(v, key))
  }
}
