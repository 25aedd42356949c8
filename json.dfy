/**
 * JSON values as the Go code sees them after `json.Unmarshal` into
 * `interface{}`, and the byte strings that the caches, the blob store and the
 * origin hand around.
 */
module Json {
  import opened Wrappers

  /** A decoded JSON value. Numbers are modelled as integers. */
  datatype Json =
    | JNull
    | JBool(b: bool)
    | JNum(n: int)
    | JStr(s: string)
    | JArr(items: seq<Json>)
    | JObj(fields: map<string, Json>)

  type Object = map<string, Json>

  newtype byte = x: int | 0 <= x < 256

  /**
   * A byte string. `JsonText(v)` is the text `json.Marshal` writes for `v`;
   * `Octets(d)` is any other byte string, which never parses as JSON.
   */
  datatype Bytes = JsonText(value: Json) | Octets(data: seq<byte>)

  /** `len(b) > 0`: a marshalled value always has at least one byte. */
  predicate NonEmpty(b: Bytes) {
    b.JsonText? || |b.data| > 0
  }

  /** `json.Marshal` of a map. */
  function Marshal(obj: Object): (b: Bytes)
    ensures NonEmpty(b)
  {
    JsonText(JObj(obj))
  }

  /** The text `null`, which `json.Unmarshal` accepts and decodes into a nil map. */
  predicate IsNull(b: Bytes) {
    b == JsonText(JNull)
  }

  /**
   * `json.Unmarshal` into `map[string]interface{}`: an object decodes to its
   * fields, `null` to the nil map, which reads as the empty map; anything else
   * is an error.
   */
  function UnmarshalObject(b: Bytes): (r: Option<Object>)
    ensures r.Some? <==> b.JsonText? && (b.value.JObj? || b.value.JNull?)
    ensures r.Some? ==> NonEmpty(b)
    ensures b.JsonText? && b.value.JObj? ==> r == Some(b.value.fields)
    ensures IsNull(b) ==> r == Some(map[])
  {
    if b.JsonText? && b.value.JObj? then Some(b.value.fields)
    else if IsNull(b) then Some(map[])
    else None
  }

  /** `json.Unmarshal(json.Marshal(m))` gives `m` back. */
  lemma MarshalRoundTrip(obj: Object)
    ensures UnmarshalObject(Marshal(obj)) == Some(obj)
  {
  }

  /** `m[key].(string)`: the string under `key`, or None when absent or not a string. */
  function StringField(obj: Object, key: string): (r: Option<string>)
    ensures r.Some? <==> key in obj && obj[key].JStr?
    ensures r.Some? ==> obj[key] == JStr(r.value)
  {
    if key in obj && obj[key].JStr? then Some(obj[key].s) else None
  }
}
