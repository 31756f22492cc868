/** JSON values, as `serde_json::Value` holds them. Objects are maps: inserting a
    key that is already present replaces its value, as `Map::insert` does. */
module Json {
  import opened Wrappers

  datatype Json =
    | JNull
    | JBool(b: bool)
    | JNumber(n: int)
    | JString(str: string)
    | JArray(items: seq<Json>)
    | JObject(fields: map<string, Json>)

  /** The member `key` of an object; `None` for a missing key or a non-object. */
  function Field(j: Json, key: string): (r: Option<Json>)
  {
    if j.JObject? && key in j.fields then Some(j.fields[key]) else None
  }
}
