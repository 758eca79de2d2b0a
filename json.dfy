/** Decoded JSON values, as `json.loads` produces them and `json.dumps` consumes them. */
module Json {

  datatype Json =
    | JNull
    | JBool(b: bool)
    | JInt(i: int)
    | JFloat(r: real)
    | JStr(s: string)
    | JArray(items: seq<Json>)
    | JObject(fields: map<string, Json>)

  /**
   * A Python `str` as the model tracks it: either plain characters, or the text that
   * `json.dumps(doc)` produces (the encoding itself is not modelled).
   */
  datatype StrValue = Chars(s: string) | JsonOf(doc: Json)

  /** The name Python gives the type of a decoded JSON value, as it appears in error messages. */
  function TypeName(j: Json): string {
    match j
    case JNull => "NoneType"
    case JBool(_) => "bool"
    case JInt(_) => "int"
    case JFloat(_) => "float"
    case JStr(_) => "str"
    case JArray(_) => "list"
    case JObject(_) => "dict"
  }
}
