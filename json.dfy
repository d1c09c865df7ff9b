/** Parsed JSON values, with JavaScript's notion of truthiness. */
module Json {
  import opened Wrappers
  import Assoc

  /** A parsed JSON value; object fields keep their insertion order. */
  datatype Json =
    | JNull
    | JBool(b: bool)
    | JNum(n: int)
    | JStr(s: string)
    | JArr(items: seq<Json>)
    | JObj(fields: seq<(string, Json)>)

  /** JavaScript truthiness of a JSON value (`NaN` does not occur in parsed JSON). */
  predicate Truthy(v: Json) {
    match v
    case JNull => false
    case JBool(b) => b
    case JNum(n) => n != 0
    case JStr(s) => s != ""
    case JArr(_) => true
    case JObj(_) => true
  }

  /** `v[key]`: a field of an object; no other value has named fields (`null` aside, where reading one throws). */
  function Field(v: Json, key: string): (r: Option<Json>)
    ensures !v.JObj? ==> r.None?
    ensures v.JObj? ==> r == Assoc.Lookup(v.fields, key)
  {
    if v.JObj? then Assoc.Lookup(v.fields, key) else None
  }

  /** `v[key]` is truthy. */
  predicate FieldSet(v: Json, key: string) {
    Field(v, key).Some? && Truthy(Field(v, key).value)
  }
}
