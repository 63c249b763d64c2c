/**
  JavaScript values as the product router sees them: the fields of a parsed
  JSON request body, the values a storage adapter hands back, and the values
  it throws. Only the two JavaScript notions the router relies on are defined
  here: loose equality with `null` and truthiness.
 */
module JsValues {

  /** A JavaScript value. Numbers are modelled as reals, with NaN kept apart
      because it is the one falsy number other than zero. */
  datatype JsValue =
    | Undefined
    | Null
    | Bool(b: bool)
    | Num(x: real)
    | NaN
    | Str(s: string)
    | Arr(items: seq<JsValue>)
    | Obj(fields: map<string, JsValue>)

  /** A plain object such as a parsed request body: its own keys and values. */
  type Body = map<string, JsValue>

  /** Property access `body.key`: a missing key reads as `undefined`. */
  function Get(body: Body, key: string): (v: JsValue)
    ensures v != Undefined ==> key in body && body[key] == v
  {
    if key in body then body[key] else Undefined
  }

  /** Loose equality with null, `v == null`: true of `null` and of `undefined` only. */
  predicate IsNullish(v: JsValue)
  {
    v.Undefined? || v.Null?
  }

  /** JavaScript truthiness, the test behind `!v` and `if (v)`. */
  predicate Truthy(v: JsValue)
    ensures Truthy(v) ==> !IsNullish(v)
    ensures v.Arr? || v.Obj? ==> Truthy(v)
  {
    match v
    case Undefined => false
    case Null => false
    case Bool(b) => b
    case Num(x) => x != 0.0
    case NaN => false
    case Str(s) => s != ""
    case Arr(_) => true
    case Obj(_) => true
  }

  /** Every value that is loosely equal to null is falsy, but not conversely:
      `false`, `0`, NaN and `""` are falsy and yet present. */
  lemma NullishIsFalsy(v: JsValue)
    ensures IsNullish(v) ==> !Truthy(v)
    ensures !Truthy(v) && !IsNullish(v) <==> v in {Bool(false), Num(0.0), NaN, Str("")}
  {
  }
}
