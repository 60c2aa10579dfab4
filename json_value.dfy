/** The untyped request body that Express hands to a route handler once the
    JSON body parser has run: a map from property names to JSON values. */
module JsonValue {

  /** One property of a parsed body. `Missing` stands for a key that the body
      does not carry (reading it in JavaScript gives `undefined`). */
  datatype Value =
    | Missing
    | Null
    | Bool(b: bool)
    | Num(r: real)
    | Str(s: string)
    | Arr(elems: seq<Value>)
    | Obj(fields: map<string, Value>)

  type Body = map<string, Value>

  /** Destructuring `const { key } = body`. */
  function Get(body: Body, key: string): Value
  {
    if key in body then body[key] else Missing
  }
}
