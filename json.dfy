/**
 * JSON values as JavaScript sees them after `JSON.parse`, with the two JavaScript
 * coercions the core relies on: truthiness and `String(value)`.
 */
module Json {
  import opened Strings
  import opened Wrappers

  /**
   * A parsed JSON value. A number is kept as the text `String(n)` would give for it
   * (canonical JavaScript form, so `-0` is "0"); nothing in the core does arithmetic on it.
   */
  datatype Json =
    | JNull
    | JBool(b: bool)
    | JNumber(text: string)
    | JString(s: string)
    | JArray(items: seq<Json>)
    | JObject(fields: map<string, Json>)

  /** Outcome of `JSON.parse(text)` or `res.json()`: a value, or the message of the SyntaxError it throws. */
  datatype JsonParse = Parsed(value: Json) | Unparsable(message: string)

  /** JavaScript truthiness of a JSON value. */
  predicate Truthy(v: Json) {
    match v
    case JNull => false
    case JBool(b) => b
    case JNumber(t) => t != "0"
    case JString(s) => s != ""
    case JArray(_) => true
    case JObject(_) => true
  }

  /** Truthiness of a value that may be `undefined` (None). */
  predicate TruthyOpt(v: Option<Json>) {
    v.Some? && Truthy(v.value)
  }

  /**
   * `v?.key` / `v.key`: the own property `key` of an object, `undefined` (None)
   * for every other value (null included, as the optional chain gives).
   */
  function Field(v: Json, key: string): Option<Json>
  {
    if v.JObject? && key in v.fields then Some(v.fields[key]) else None
  }

  /** `String(v)`: what `Error(message)`, `localStorage.setItem` and `FormData.append` store. */
  function Display(v: Json): string
    decreases v
  {
    match v
    case JNull => "null"
    case JBool(b) => if b then "true" else "false"
    case JNumber(t) => t
    case JString(s) => s
    case JArray(items) =>
      // Array.prototype.join: null elements become the empty string.
      Join(seq(|items|, i requires 0 <= i < |items| => if items[i].JNull? then "" else Display(items[i])), ",")
    case JObject(_) => "[object Object]"
  }
}
