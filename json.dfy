/** JSON values, as carried by request bodies, classifier replies and rows. */
module Json {

  /** A JSON value. Numbers are kept as reals; floating-point rounding is not
      modelled. An object is a map from keys to values, so a key the object
      lacks reads as `undefined` in JavaScript and as `!(k in fields)` here. */
  datatype Value =
    | JNull
    | JBool(b: bool)
    | JNumber(n: real)
    | JString(s: string)
    | JArray(items: seq<Value>)
    | JObject(fields: map<string, Value>)
}
