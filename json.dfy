/**
 * JSON values as the web framework hands them to the handlers (request
 * bodies) and as the handlers send them back. Numbers are JavaScript
 * numbers; only their comparisons matter here, so they are kept as reals.
 */
module Json {

  datatype Value =
    | JNull
    | JBool(b: bool)
    | JNum(n: real)
    | JStr(s: string)
    | JArr(elems: seq<Value>)
    | JObj(fields: map<string, Value>)

  /** A JSON object: a movie record, or the validated data merged into one. */
  type Object = map<string, Value>
}
