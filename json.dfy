/** Decoded JSON values as the integration sees them after `response.json()`,
    with the two pieces of Python semantics the core relies on: truthiness
    (`if not x`, `x or ""`) and `dict.get`. */
module Json {

  datatype Json =
    | JNull
    | JBool(b: bool)
    | JNum(n: int)
    | JStr(s: string)
    | JArr(items: seq<Json>)
    | JObj(fields: map<string, Json>)

  /** Python truthiness of a decoded value: `None`, `False`, `0`, `""`, `[]`
      and `{}` are false, everything else is true. */
  predicate Truthy(j: Json) {
    match j
    case JNull => false
    case JBool(b) => b
    case JNum(n) => n != 0
    case JStr(s) => s != []
    case JArr(items) => items != []
    case JObj(fields) => fields != map[]
  }

  /** `d.get(key)`: the value under `key`, or `None` when the key is absent. */
  function Get(j: Json, key: string): (r: Json)
    requires j.JObj?
    ensures key in j.fields ==> r == j.fields[key]
    ensures key !in j.fields ==> r == JNull && !Truthy(r)
  {
    if key in j.fields then j.fields[key] else JNull
  }

  /** `d[key]` succeeds (no KeyError, no TypeError). */
  predicate HasKey(j: Json, key: string) {
    j.JObj? && key in j.fields
  }

  /** `d[key]` succeeds and the value can be iterated as a list. */
  predicate HasList(j: Json, key: string) {
    HasKey(j, key) && j.fields[key].JArr?
  }
}
