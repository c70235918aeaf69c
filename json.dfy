/**
 * JSON values as exchanged with the Lahza gateway and the site's own API,
 * with Python's and JavaScript's notions of truthiness.  A missing key reads
 * as JNull (Python's dict.get default; JavaScript's undefined, which behaves
 * like null in every `||` chain modelled here).
 */
module Json {
  import opened Text

  datatype Json =
    | JNull
    | JBool(b: bool)
    | JNum(n: int)
    | JStr(s: string)
    | JArr(items: seq<Json>)
    | JObj(fields: map<string, Json>)

  /** Python truthiness: empty strings, lists and dicts are falsy. */
  predicate PyTruthy(j: Json)
  {
    match j
    case JNull => false
    case JBool(b) => b
    case JNum(n) => n != 0
    case JStr(s) => s != ""
    case JArr(items) => items != []
    case JObj(fields) => fields != map[]
  }

  /** JavaScript truthiness: every array and object is truthy. */
  predicate JsTruthy(j: Json)
  {
    match j
    case JNull => false
    case JBool(b) => b
    case JNum(n) => n != 0
    case JStr(s) => s != ""
    case JArr(_) => true
    case JObj(_) => true
  }

  /** obj.get(key) / obj[key], JNull when absent. */
  function Get(fields: map<string, Json>, key: string): Json
  {
    if key in fields then fields[key] else JNull
  }

  /** Python `a or b`. */
  function PyOr(a: Json, b: Json): (r: Json)
    ensures r == a || r == b
    ensures PyTruthy(r) <==> PyTruthy(a) || PyTruthy(b)
  {
    if PyTruthy(a) then a else b
  }

  /** JavaScript `a || b`. */
  function JsOr(a: Json, b: Json): (r: Json)
    ensures r == a || r == b
    ensures JsTruthy(r) <==> JsTruthy(a) || JsTruthy(b)
  {
    if JsTruthy(a) then a else b
  }

  /** A string for JavaScript, JNull for null. */
  function StrOrNull(s: string): Json
  {
    if s == "" then JNull else JStr(s)
  }

  /** String(value): arrays join their elements' strings with ',' (null elements as ''). */
  function JsString(j: Json): string
  {
    match j
    case JNull => "null"
    case JBool(b) => if b then "true" else "false"
    case JNum(n) => if n < 0 then "-" + NatToString(-n) else NatToString(n)
    case JStr(s) => s
    case JArr(items) => Join(seq(|items|, i requires 0 <= i < |items| => if items[i] == JNull then "" else JsString(items[i])), ",")
    case JObj(_) => "[object Object]"
  }

  /** `String(a || b || fallback)` for an error text: the first truthy value, as a string. */
  function OrText(a: Json, b: Json, fallback: string): (r: string)
    ensures JsTruthy(a) ==> r == JsString(a)
    ensures !JsTruthy(a) && JsTruthy(b) ==> r == JsString(b)
    ensures !JsTruthy(a) && !JsTruthy(b) ==> r == fallback
  {
    if JsTruthy(a) then JsString(a) else if JsTruthy(b) then JsString(b) else fallback
  }
}
