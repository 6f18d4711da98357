/** JSON values as the handler builds them and as `JSON.stringify` writes them. */
module Json {

  import opened Wrappers

  /** A JSON value. `JNumber(source)` is the number JavaScript's unary `+` makes of the
      text `source`; the model keeps the text and does not interpret it (a text that is
      not numeric stands for NaN, which serialises as `null`). */
  datatype Json =
    | JNull
    | JBool(b: bool)
    | JNumber(source: string)
    | JString(s: string)
    | JArray(items: seq<Json>)
    | JObject(fields: map<string, Json>)

  /** `j` is an object whose property `key` holds `v`. */
  predicate HasField(j: Json, key: string, v: Json)
  {
    j.JObject? && key in j.fields && j.fields[key] == v
  }

  /** `j` is an array of the strings `ss`, in order. */
  predicate IsStringArray(j: Json, ss: seq<string>)
  {
    j.JArray? && |j.items| == |ss| && forall i :: 0 <= i < |ss| ==> j.items[i] == JString(ss[i])
  }

  /** An object literal with one more property whose value may be `undefined`:
      `JSON.stringify` leaves a property out when its value is `undefined`. */
  function WithOptional(fields: map<string, Json>, key: string, value: Option<Json>): (r: Json)
    requires key !in fields
    ensures r.JObject? && r.fields.Keys == fields.Keys + (if value.Some? then {key} else {})
    ensures forall k :: k in fields ==> k in r.fields && r.fields[k] == fields[k]
    ensures value.Some? ==> r.fields[key] == value.value
  {
    match value
    case None => JObject(fields)
    case Some(v) => JObject(fields[key := v])
  }
}
