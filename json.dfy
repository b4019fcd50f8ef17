/** The part of a JSON settings document the resolver inspects: object lookup
    by key (`Value::get`) and reading a value as a string (`Value::as_str`). */
module Json {
  import opened Wrappers

  /** A JSON-like value. Numbers are kept as integers; nothing here reads them. */
  datatype Value =
    | Null
    | Bool(b: bool)
    | Number(n: int)
    | String(s: string)
    | Array(items: seq<Value>)
    | Object(fields: map<string, Value>)

  /** `value.get(key)`: the member named `key` of an object; None for a missing
      key and for every value that is not an object. */
  function Get(v: Value, key: string): (r: Option<Value>)
    ensures r.Some? <==> v.Object? && key in v.fields
    ensures r.Some? ==> r.value == v.fields[key]
  {
    match v
    case Object(fields) => if key in fields then Some(fields[key]) else None
    case _ => None
  }

  /** `value.as_str()`: the text of a JSON string; None for every other kind. */
  function AsStr(v: Value): (r: Option<string>)
    ensures r.Some? <==> v.String?
    ensures r.Some? ==> v == String(r.value)
  {
    match v
    case String(s) => Some(s)
    case _ => None
  }

  /** `value.get(key).and_then(|v| v.as_str())`: a member read as a string.
      A member that is present but not a string reads as absent. */
  function GetStr(v: Value, key: string): (r: Option<string>)
    ensures r.Some? <==> v.Object? && key in v.fields && v.fields[key].String?
    ensures r.Some? ==> v.fields[key] == String(r.value)
  {
    match Get(v, key)
    case Some(member) => AsStr(member)
    case None => None
  }

  /** Taking a key out of an object leaves every other key's string reading alone,
      and makes that key read as absent. */
  lemma GetStrWithout(fields: map<string, Value>, removed: string, key: string)
    ensures GetStr(Object(fields - {removed}), key) ==
            if key == removed then None else GetStr(Object(fields), key)
  {
  }
}
