/**
 * JSON values as they travel in request bodies and response envelopes.
 * An object is a map from key to value; a key whose JavaScript value is
 * `undefined` is simply absent, as `JSON.stringify` drops it.
 */
module Json {
  import opened Wrappers

  datatype Json =
    | JNull
    | JBool(b: bool)
    | JNumber(n: int)
    | JString(s: string)
    | JArray(items: seq<Json>)
    | JObject(members: map<string, Json>)

  /** `obj[key]`: undefined when the key is missing. */
  function Lookup(members: map<string, Json>, key: string): Option<Json> {
    if key in members then Some(members[key]) else None
  }

  /** The value of `obj[key]` when it is a string. */
  function StringMember(members: map<string, Json>, key: string): Option<string> {
    if key in members && members[key].JString? then Some(members[key].s) else None
  }

  /** An object literal `{ key: v }` whose value may be undefined. */
  function Optional(key: string, v: Option<Json>): map<string, Json> {
    if v.Some? then map[key := v.value] else map[]
  }
}
