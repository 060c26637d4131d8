/**
 * JSON values as JavaScript sees them once `JSON.parse` or `req.json()` has run, with the
 * three JavaScript operations the core applies to them: truthiness (`!x`), optional
 * property access (`x?.key`) and string conversion inside a template literal (`${x}`).
 * Numbers are integers here.
 */
module Json {
  import opened Base
  import Decimal

  datatype Json =
    | JNull
    | JBool(b: bool)
    | JNum(n: int)
    | JStr(s: string)
    | JArr(items: seq<Json>)
    | JObj(fields: map<string, Json>)

  /** The outcome of reading a body as JSON: a value, or the message of what was thrown. */
  datatype Decoded = Decoded(value: Json) | Threw(message: string)

  /** JavaScript's ToBoolean on a JSON value. */
  predicate Truthy(j: Json)
  {
    match j
    case JNull => false
    case JBool(b) => b
    case JNum(n) => n != 0
    case JStr(s) => s != ""
    case _ => true
  }

  /** `j?.key`: defined only for an object holding the key; `None` stands for `undefined`. */
  function Field(j: Json, key: string): (v: Option<Json>)
    ensures v.Some? <==> j.JObj? && key in j.fields
    ensures v.Some? ==> v.value == j.fields[key]
  {
    if j.JObj? && key in j.fields then Some(j.fields[key]) else None
  }

  /** `!!j?.key`: the key is there and its value is truthy. */
  predicate Present(v: Option<Json>)
  {
    v.Some? && Truthy(v.value)
  }

  /** `parts.join(sep)`. */
  function Join(parts: seq<string>, sep: string): string
  {
    if parts == [] then "" else if |parts| == 1 then parts[0] else parts[0] + sep + Join(parts[1..], sep)
  }

  /** `${j}`: JavaScript's ToString on a JSON value (an array joins its elements with ","). */
  function ToText(j: Json): string
  {
    match j
    case JNull => "null"
    case JBool(b) => if b then "true" else "false"
    case JNum(n) => Decimal.IntToString(n)
    case JStr(s) => s
    case JArr(items) =>
      Join(seq(|items|, i requires 0 <= i < |items| => if items[i].JNull? then "" else ToText(items[i])), ",")
    case JObj(_) => "[object Object]"
  }
}
