// Parsed JSON values with Python's view of them (`bool()`, `dict.get`, `str()`).
module Json {
  import opened Wrappers
  import Text

  /** A parsed JSON document. Numbers are integers; objects are dictionaries. */
  datatype Json =
    | JNull
    | JBool(b: bool)
    | JNum(n: int)
    | JStr(s: string)
    | JArr(items: seq<Json>)
    | JObj(fields: map<string, Json>)

  /** Python truthiness of the value `json.loads` produces. */
  predicate Truthy(j: Json) {
    match j
    case JNull => false
    case JBool(b) => b
    case JNum(n) => n != 0
    case JStr(s) => s != ""
    case JArr(items) => items != []
    case JObj(fields) => fields != map[]
  }

  /** `d.get(key)`: a missing key reads as `None`, which is JSON `null`. */
  function Get(d: map<string, Json>, key: string): (r: Json)
    ensures key !in d ==> r == JNull
    ensures key in d ==> r == d[key]
  {
    if key in d then d[key] else JNull
  }

  /** Python `a or b`. */
  function Or(a: Json, b: Json): (r: Json)
    ensures Truthy(a) ==> r == a
    ensures !Truthy(a) ==> r == b
  {
    if Truthy(a) then a else b
  }

  /** Python `str(j)`. Containers are printed by the host (`repr`). */
  function Str(j: Json, reprContainer: Json -> string): string {
    match j
    case JNull => "None"
    case JBool(b) => if b then "True" else "False"
    case JNum(n) => Text.IntToString(n)
    case JStr(s) => s
    case _ => reprContainer(j)
  }

  /** The value an Odoo Char field stores when given `j`: `None`/`False` clear it. */
  function CharValue(j: Json, reprContainer: Json -> string): (r: Option<string>)
    ensures r.None? <==> (j == JNull || j == JBool(false))
    ensures j.JStr? ==> r == Some(j.s)
  {
    if j == JNull || j == JBool(false) then None else Some(Str(j, reprContainer))
  }
}
