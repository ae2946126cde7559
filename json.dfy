/// `serde_json::Value` and the accessors the core reads it with.
/// Numbers are integers (what `as_u64`/`as_i64` can return) or other
/// numbers, whose value the core never reads.
module Json {
  import opened Common

  datatype Json =
    | JNull
    | JBool(b: bool)
    | JInt(i: int)
    | JFloat(f: real)
    | JString(s: string)
    | JArray(items: seq<Json>)
    | JObject(fields: map<string, Json>)

  /// `value.get(key)`: a member of an object; nothing for other values.
  function Get(j: Json, key: string): (r: Option<Json>)
    ensures r.Some? <==> j.JObject? && key in j.fields
  {
    if j.JObject? && key in j.fields then Some(j.fields[key]) else None
  }

  /// `opt.and_then(|v| v.get(key))`.
  function GetIn(o: Option<Json>, key: string): Option<Json>
  {
    match o
    case None => None
    case Some(j) => Get(j, key)
  }

  /// `opt.and_then(|v| v.as_str())`.
  function AsStr(o: Option<Json>): (r: Option<string>)
    ensures r.Some? <==> o.Some? && o.value.JString?
  {
    match o
    case Some(JString(s)) => Some(s)
    case _ => None
  }

  /// `opt.and_then(|v| v.as_bool())`.
  function AsBool(o: Option<Json>): (r: Option<bool>)
    ensures r.Some? <==> o.Some? && o.value.JBool?
  {
    match o
    case Some(JBool(b)) => Some(b)
    case _ => None
  }

  /// `opt.and_then(|v| v.as_u64())`: integers in the `u64` range.
  function AsU64(o: Option<Json>): (r: Option<nat>)
    ensures r.Some? ==> r.value < U64_LIMIT
  {
    match o
    case Some(JInt(i)) => if 0 <= i < U64_LIMIT then Some(i) else None
    case _ => None
  }

  /// `opt.and_then(|v| v.as_i64())`: integers in the `i64` range.
  function AsI64(o: Option<Json>): (r: Option<int>)
    ensures r.Some? ==> I64_MIN <= r.value <= I64_MAX
  {
    match o
    case Some(JInt(i)) => if I64_MIN <= i <= I64_MAX then Some(i) else None
    case _ => None
  }

  /// `opt.and_then(|v| v.as_array())`.
  function AsArray(o: Option<Json>): (r: Option<seq<Json>>)
    ensures r.Some? <==> o.Some? && o.value.JArray?
  {
    match o
    case Some(JArray(items)) => Some(items)
    case _ => None
  }

  /// `value.as_object()`.
  function AsObject(j: Json): Option<map<string, Json>>
  {
    if j.JObject? then Some(j.fields) else None
  }

  // ---------------------------------------------------------------------
  // Python subscripts on a parsed response
  // ---------------------------------------------------------------------

  const TYPE_ERROR: string := "TypeError"

  function KeyError(key: string): string
  {
    "KeyError: " + key
  }

  /// `value[key]` on a parsed response: a member of an object, `KeyError`
  /// when it is missing and `TypeError` on any other value.
  function Field(v: Json, key: string): (r: Result<Json>)
    ensures r.Ok? <==> v.JObject? && key in v.fields
    ensures r.Ok? ==> r.value == v.fields[key]
  {
    if !v.JObject? then Err(TYPE_ERROR)
    else if key !in v.fields then Err(KeyError(key))
    else Ok(v.fields[key])
  }

  /// The elements a `for` loop visits in a response list.
  function Items(v: Json): (r: Result<seq<Json>>)
    ensures r.Ok? <==> v.JArray?
  {
    if v.JArray? then Ok(v.items) else Err(TYPE_ERROR)
  }
}
