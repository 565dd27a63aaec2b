/**
 * JSON values as Python's `json` module decodes them: `int` and `float` stay
 * distinct, objects are dictionaries keyed by strings.  Key order, which a
 * Python dict keeps, is not part of a Dafny map.
 */
module JsonValues {

  import Decimal

  datatype Json =
    | JNull
    | JBool(b: bool)
    | JInt(i: int)
    | JFloat(r: real)
    | JString(s: string)
    | JArray(items: seq<Json>)
    | JObject(fields: map<string, Json>)

  /** Python's `str()` of a JSON scalar: the text itself, decimal digits, `True`/`False`, `None`. */
  predicate IsScalar(v: Json) {
    v.JString? || v.JInt? || v.JBool? || v.JNull?
  }

  function ScalarText(v: Json): (t: string)
    requires IsScalar(v)
    ensures v.JString? ==> t == v.s
    ensures v.JNull? ==> t == "None"
  {
    match v
    case JString(s) => s
    case JInt(i) => Decimal.IntToString(i)
    case JBool(b) => if b then "True" else "False"
    case JNull => "None"
  }
}
