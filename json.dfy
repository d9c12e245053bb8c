/** Decoded JSON values, as Python's `json` module and Flask's `jsonify` see them. */
module Json {

  /** A JSON value. Numbers carry an integer: no operation of the relay
      looks inside a number, only at its type. */
  datatype Json =
    | JNull
    | JBool(b: bool)
    | JNum(n: int)
    | JStr(s: string)
    | JArr(items: seq<Json>)
    | JObj(fields: map<string, Json>)
}
