/**
 The few JavaScript values the pages pass around. Request parameters, page
 metadata and error bodies are untyped in the source: a parameter read from
 the query string is a string, its default a number, a server field whatever
 the server sent. `Value` keeps those cases apart so that "taken verbatim"
 can be stated exactly.
 */
module JsValues {

  datatype Option<T> = None | Some(value: T)

  /** A scalar JavaScript value; numbers are modelled as integers. */
  datatype Value = Undefined | Null | Bool(b: bool) | Num(n: int) | Str(s: string)

  /** `null` or `undefined`, the values `??` and `?.` treat as absent. */
  predicate IsNullish(v: Value) {
    v.Undefined? || v.Null?
  }

  /** `v ?? fallback` */
  function Coalesce(v: Value, fallback: Value): Value {
    if IsNullish(v) then fallback else v
  }
}
