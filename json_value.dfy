/**
 * JSON documents, as the encoding/json package hands them to the decoders,
 * and the rules by which encoding/json fills a Go struct from an object:
 * a missing member or a `null` leaves the field at its zero value, a member
 * of the wrong JSON type is an error, and unknown members are ignored.
 */
module JsonValue {
  import opened Results

  datatype Json =
    | JNull
    | JBool(b: bool)
    | JNumber(n: real)
    | JString(s: string)
    | JArray(items: seq<Json>)
    | JObject(members: map<string, Json>)

  type Object = map<string, Json>

  /** A member of an object; a missing member reads like `null`, which leaves a field at its zero value. */
  function Member(o: Object, key: string): Json
  {
    if key in o then o[key] else JNull
  }

  /** Decoding a value into a Go struct: an object, or `null` (every field zero). */
  function AsStruct(j: Json): Option<Object>
  {
    match j
    case JObject(m) => Some(m)
    case JNull => Some(map[])
    case _ => None
  }

  /** Decoding a value into a Go `string`. */
  function AsString(j: Json): Option<string>
  {
    match j
    case JString(s) => Some(s)
    case JNull => Some("")
    case _ => None
  }

  /** Decoding a value into a Go `float64`. */
  function AsNumber(j: Json): Option<real>
  {
    match j
    case JNumber(n) => Some(n)
    case JNull => Some(0.0)
    case _ => None
  }

  /** A `string` field of a struct. */
  function StringField(o: Object, key: string): Option<string>
  {
    AsString(Member(o, key))
  }

  /** A `float64` field of a struct. */
  function NumberField(o: Object, key: string): Option<real>
  {
    AsNumber(Member(o, key))
  }
}
