/** Decoded JSON values, as `JSON.parse` produces them and as zod inspects them.
    Numbers are integers in this model; an object property that is `undefined`
    is an absent key (which is also how `JSON.stringify` writes it). */
module Json {
  datatype Value =
    | JNull
    | JBool(b: bool)
    | JNum(n: int)
    | JStr(s: string)
    | JArr(items: seq<Value>)
    | JObj(fields: map<string, Value>)
}
