/** Option, and the JSON values a request body carries once body-parser has decoded it. */
module Values {

  datatype Option<+T> = None | Some(value: T)

  /** A field of a decoded JSON body. `Undefined` is a key the body does not have.
      Objects and arrays are not modelled, and numbers are integers (only their truthiness
      matters to the handlers). */
  datatype Json = Undefined | Null | Bool(b: bool) | Num(n: int) | Str(s: string)

  /** JavaScript truthiness: the test behind every `!x` guard of the handlers. */
  predicate Truthy(v: Json) {
    match v
    case Undefined => false
    case Null => false
    case Bool(b) => b
    case Num(n) => n != 0
    case Str(s) => s != ""
  }

  /** `const { key } = req.body`: a missing key reads as undefined. */
  function Field(body: map<string, Json>, key: string): Json {
    if key in body then body[key] else Undefined
  }

  /** The value read back from a nullable column: the sqlite3 driver binds `undefined` as NULL. */
  function Column(v: Json): (c: Json)
    ensures v == Undefined ==> c == Null
    ensures v != Undefined ==> c == v
  {
    if v == Undefined then Null else v
  }
}
