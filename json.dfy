/**
 * Values decoded by `json.loads` and the Python operations the backend
 * applies to them: truthiness, `len`, `int(...)` and `dict.get`.
 */
module Json {

  import opened Wrappers
  import PyStr

  datatype Json =
    | JNull
    | JBool(b: bool)
    | JInt(i: int)
    | JString(s: string)
    | JArray(items: seq<Json>)
    | JObject(fields: map<string, Json>)

  /** One call to the remote reasoning service: the decoded reply, or the text
      of the exception raised by the call or by decoding its reply. */
  type Remote<T> = Result<T>

  /** `bool(v)`. */
  predicate Truthy(v: Json)
  {
    match v
    case JNull => false
    case JBool(b) => b
    case JInt(i) => i != 0
    case JString(s) => s != ""
    case JArray(items) => items != []
    case JObject(fields) => fields != map[]
  }

  /** `d.get(key, default)` on a dict. */
  function Get(fields: map<string, Json>, key: string, default: Json): (r: Json)
    ensures key in fields ==> r == fields[key]
    ensures key !in fields ==> r == default
  {
    if key in fields then fields[key] else default
  }

  /** `len(v)`; a value without a length raises `TypeError`. */
  function Len(v: Json): (r: Result<nat>)
    ensures r.Ok? <==> (v.JString? || v.JArray? || v.JObject?)
  {
    match v
    case JString(s) => Ok(|s|)
    case JArray(items) => Ok(|items|)
    case JObject(fields) => Ok(|fields|)
    case _ => Err("TypeError")
  }

  /** `int(v)`: booleans count as 0/1, strings are parsed, `None`, lists and
      dicts raise. */
  function IntOf(v: Json): (r: Result<int>)
    ensures v.JInt? ==> r == Ok(v.i)
    ensures v.JNull? || v.JArray? || v.JObject? ==> r.Err?
  {
    match v
    case JInt(i) => Ok(i)
    case JBool(b) => Ok(if b then 1 else 0)
    case JString(s) =>
      (match PyStr.ParseInt(s)
       case Some(i) => Ok(i)
       case None => Err("ValueError"))
    case _ => Err("TypeError")
  }

  /** A list of strings. */
  function Strings(ss: seq<string>): (r: Json)
    ensures r.JArray? && |r.items| == |ss|
    ensures forall k :: 0 <= k < |ss| ==> r.items[k] == JString(ss[k])
  {
    JArray(seq(|ss|, k requires 0 <= k < |ss| => JString(ss[k])))
  }
}
