/** JSON-like values: the arguments of a model function call and the tool
    declaration sent with each request. */
module Json {
  import opened Wrappers
  import opened Text

  datatype Json =
    | JNull
    | JBool(b: bool)
    | JNum(n: int)
    | JStr(s: string)
    | JArr(items: seq<Json>)
    | JObj(fields: map<string, Json>)

  /** Python truthiness of the value. */
  predicate Truthy(v: Json) {
    match v
    case JNull => false
    case JBool(b) => b
    case JNum(n) => n != 0
    case JStr(s) => s != []
    case JArr(items) => items != []
    case JObj(fields) => fields != map[]
  }

  /** `len(v)` where Python defines it (strings, lists, dicts); None where
      `len` raises `TypeError`. */
  function Length(v: Json): (r: Option<nat>)
    ensures r.Some? <==> v.JStr? || v.JArr? || v.JObj?
    ensures r.Some? ==> (r.value == 0 <==> !Truthy(v))
  {
    match v
    case JStr(s) => Some(|s|)
    case JArr(items) => Some(|items|)
    case JObj(fields) => Some(|fields.Keys|)
    case _ => None
  }

  /** `d.get(key, default)` on a dictionary. */
  function Get(fields: map<string, Json>, key: string, default: Json): (r: Json)
    ensures key in fields ==> r == fields[key]
    ensures key !in fields ==> r == default
  {
    if key in fields then fields[key] else default
  }

  /** `str(v)` for the scalar values; a number is shown as the float the
      protocol carries ("3.0"). Lists and dictionaries get a placeholder. */
  function Str(v: Json): string {
    match v
    case JNull => "None"
    case JBool(b) => if b then "True" else "False"
    case JNum(n) => IntToString(n) + ".0"
    case JStr(s) => s
    case JArr(_) => "[...]"
    case JObj(_) => "{...}"
  }

  /** The list of the given strings. */
  function StrArray(items: seq<string>): (r: Json)
    ensures r.JArr? && |r.items| == |items|
    ensures forall k :: 0 <= k < |items| ==> r.items[k] == JStr(items[k])
  {
    JArr(seq(|items|, k requires 0 <= k < |items| => JStr(items[k])))
  }
}
