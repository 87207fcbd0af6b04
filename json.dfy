/** A decoded JSON document, as `json.loads` and the pydantic models see it. */
module Json {
  import opened Wrappers

  /** Numbers are integers only; floating point is not modelled. */
  datatype Json =
    | JNull
    | JBool(b: bool)
    | JNum(n: int)
    | JStr(s: string)
    | JArr(items: seq<Json>)
    | JObj(fields: map<string, Json>)

  /** The member `key` of an object, if the document is an object that has it. */
  function Member(j: Json, key: string): (r: Option<Json>)
    ensures r.Some? <==> j.JObj? && key in j.fields
    ensures r.Some? ==> r.value == j.fields[key]
  {
    if j.JObj? && key in j.fields then Some(j.fields[key]) else None
  }

  /** The member `key` of an object when it is a JSON string: what a pydantic `str` field accepts. */
  function Str(j: Json, key: string): (r: Option<string>)
    ensures r.Some? <==> j.JObj? && key in j.fields && j.fields[key].JStr?
    ensures r.Some? ==> j.fields[key] == JStr(r.value)
  {
    match Member(j, key)
    case Some(JStr(s)) => Some(s)
    case _ => None
  }
}
