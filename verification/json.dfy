/**
 * JavaScript values as they cross the JSON boundary between the client and the
 * API: response bodies, user profiles and result fields. Numbers are integral.
 */
module Json {
  import opened Strings

  datatype Json =
    | Undefined
    | Null
    | Bool(b: bool)
    | Num(n: int)
    | Str(s: string)
    | Arr(items: seq<Json>)
    | Obj(fields: map<string, Json>)

  /** JavaScript truthiness: `undefined`, `null`, `false`, `0` and `""` are falsy. */
  predicate Truthy(j: Json) {
    match j
    case Undefined => false
    case Null => false
    case Bool(b) => b
    case Num(n) => n != 0
    case Str(s) => s != ""
    case Arr(_) => true
    case Obj(_) => true
  }

  /** `a || b`. */
  function Or(a: Json, b: Json): Json {
    if Truthy(a) then a else b
  }

  /** Property read `j.key`: only objects carry the keys read here. */
  function Get(j: Json, key: string): Json {
    if j.Obj? && key in j.fields then j.fields[key] else Undefined
  }

  /** `String(j)`: the text a value becomes when used as an error message. */
  function ToText(j: Json): string
    decreases j
  {
    match j
    case Undefined => "undefined"
    case Null => "null"
    case Bool(b) => if b then "true" else "false"
    case Num(n) => IntToString(n)
    case Str(s) => s
    case Arr(items) =>
      Join(seq(|items|, k requires 0 <= k < |items| =>
        if items[k].Null? || items[k].Undefined? then "" else ToText(items[k])), ",")
    case Obj(_) => "[object Object]"
  }

  /** `String(j || fallback)`: a message read from a response field with a default. */
  function TextOr(j: Json, fallback: string): (r: string)
    ensures j.Str? && j.s != "" ==> r == j.s
    ensures !Truthy(j) ==> r == fallback
  {
    if Truthy(j) then ToText(j) else fallback
  }

  /** `message || fallback` on a string. */
  function MessageOr(message: string, fallback: string): (r: string)
    ensures message != "" ==> r == message
    ensures message == "" ==> r == fallback
  {
    if message != "" then message else fallback
  }
}
