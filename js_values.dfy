/**
  The JavaScript values that cross the boundary of the middleware: what a
  caller-supplied `transform` may return, what the Koa context's properties
  hold, and the `include`/`exclude` options handed to the filter factory.
  Functions are not values here: the one place where the middleware asks
  whether something is a function (the `test` option) has its own datatype.
 */
module JsValues {

  datatype JsValue =
    | Undefined
    | Null
    | Bool(b: bool)
    | Num(n: int)
    | Text(s: string)
    | Array(items: seq<JsValue>)
    | Record(fields: map<string, JsValue>)

  /** `typeof v === 'string'`: only a primitive string answers yes. */
  predicate IsString(v: JsValue) {
    v.Text?
  }

  /** JavaScript's RequireObjectCoercible: property access on these throws a TypeError. */
  predicate IsNullish(v: JsValue) {
    v.Undefined? || v.Null?
  }

  /**
    JavaScript's ToBoolean, as an `if` applies it: `undefined`, `null`,
    `false`, `0` and `''` are falsy, and every array and object is truthy.
   */
  function Truthy(v: JsValue): (r: bool) {
    match v
    case Undefined => false
    case Null => false
    case Bool(b) => b
    case Num(n) => n != 0
    case Text(s) => s != ""
    case _ => true
  }

  /**
    Reading property `key` of a value that is not nullish, as an object
    destructuring pattern does: an own field of a plain object; every other
    read gives `undefined` (the model gives arrays and strings no `length` or
    index properties, which the handler never reads).
   */
  function Property(v: JsValue, key: string): (r: JsValue)
    requires !IsNullish(v)
    ensures r != Undefined ==> v.Record? && key in v.fields && v.fields[key] == r
    ensures v.Record? && key in v.fields ==> r == v.fields[key]
  {
    match v
    case Record(fields) => if key in fields then fields[key] else Undefined
    case _ => Undefined
  }

  /** The plain object literal `{ source: source, type: type }`. */
  function SourceAndType(source: JsValue, typ: JsValue): (r: JsValue)
    ensures !IsNullish(r) && Property(r, "source") == source && Property(r, "type") == typ
  {
    Record(map["source" := source, "type" := typ])
  }
}
