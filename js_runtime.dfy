/**
 * The dynamic JavaScript values that flow through the mappers, the opaque
 * `Date`, and the foreign library calls the code makes, which the model
 * leaves uninterpreted by taking them as parameters.
 */
module JsRuntime {

  /** A JavaScript `Date`, known only by the string it was constructed from. */
  datatype JsDate = JsDate(source: string)

  /** A JavaScript value as the application records hold it. Numbers are modelled as reals. */
  datatype Value =
    | Undefined
    | Null
    | Bool(b: bool)
    | Num(n: real)
    | Str(s: string)
    | DateObj(date: JsDate)
    | Arr(items: seq<Value>)
    | Obj(fields: map<string, Value>)

  /** JavaScript truthiness of a value. */
  predicate Truthy(v: Value)
  {
    match v
    case Undefined => false
    case Null => false
    case Bool(b) => b
    case Num(n) => n != 0.0
    case Str(s) => s != ""
    case _ => true
  }

  /** `obj[key]` on an application record: a missing key reads as `undefined`. */
  function Field(record: map<string, Value>, key: string): (r: Value)
    ensures key in record ==> r == record[key]
    ensures key !in record ==> r == Undefined
  {
    if key in record then record[key] else Undefined
  }

  /** The lodash string helpers the code calls, taken as uninterpreted functions. */
  datatype Lodash = Lodash(
    camelCase: string -> string,
    upperFirst: string -> string,
    lowerCase: string -> string)
}
