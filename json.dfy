/**
 * The values `JSON.parse` can produce, and the small failure-carrying
 * wrappers the rest of the model returns.
 *
 * `JSON.parse` itself is not modelled: wherever the service parses text,
 * the model takes the parser as a parameter `parse: string -> Option<Json>`
 * (None standing for the exception it throws on malformed input).
 */
module Json {

  datatype Option<+T> = None | Some(value: T)

  /** A success value, or the error the JavaScript code would throw. */
  datatype Result<+T, +E> = Ok(value: T) | Err(error: E)

  /** A check that passes, or fails with the error it would throw. */
  datatype Outcome<+E> = Pass | Fail(error: E)

  /**
   * A parsed JSON value. Numbers are JavaScript doubles in the source; the
   * model only ever compares them with the integer 3, so `real` suffices.
   * Objects are maps: `JSON.parse` keeps the last of duplicate keys.
   */
  datatype Json =
    | JNull
    | JBool(b: bool)
    | JNumber(n: real)
    | JString(s: string)
    | JArray(elems: seq<Json>)
    | JObject(fields: map<string, Json>)

  /** The JavaScript `in` operator throws a TypeError unless its right operand is an object (arrays included). */
  predicate InOperandOk(v: Json)
  {
    v.JObject? || v.JArray?
  }

  /**
   * `key in v` for an object or array `v`. For an array this is false: the
   * only keys the service ever asks about are the result and category names,
   * none of which is an array index, `length` or an inherited member.
   */
  function HasKey(v: Json, key: string): (r: bool)
    requires InOperandOk(v)
    ensures v.JArray? ==> !r
    ensures v.JObject? ==> (r <==> key in v.fields)
  {
    v.JObject? && key in v.fields
  }

  /** What reading the property `length` of a value gives, short of throwing. */
  datatype Property = Undefined | Defined(value: Json)

  /**
   * `v.length` in JavaScript: arrays and strings report their size, an object
   * its own `length` member if it has one, numbers and booleans `undefined`;
   * on `null` the read throws a TypeError (None here).
   */
  function ReadLength(v: Json): (r: Option<Property>)
    ensures r.None? <==> v.JNull?
    ensures v.JArray? ==> r == Some(Defined(JNumber(|v.elems| as real)))
    ensures v.JObject? ==> (r == Some(Undefined) <==> "length" !in v.fields)
  {
    match v
    case JNull => None
    case JArray(xs) => Some(Defined(JNumber(|xs| as real)))
    case JString(s) => Some(Defined(JNumber(|s| as real)))
    case JObject(m) => if "length" in m then Some(Defined(m["length"])) else Some(Undefined)
    case _ => Some(Undefined)
  }
}
