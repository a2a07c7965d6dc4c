/**
 * A decoded JSON document as `response.json()` hands it to the client:
 * objects are dicts, arrays are lists. Each accessor mirrors one Python
 * operation on such a value; None stands for the KeyError, TypeError or
 * AttributeError that the operation raises.
 */
module Json {
  import opened Wrappers
  import Numerals

  /** JSON numbers are integers in this model. */
  datatype Json =
    | JNull
    | JBool(b: bool)
    | JInt(i: int)
    | JStr(s: string)
    | JArr(elems: seq<Json>)
    | JObj(fields: map<string, Json>)

  /** `value[key]`: a KeyError on a dict without `key`, a TypeError on a non-dict. */
  function Index(j: Json, key: string): Option<Json> {
    if j.JObj? && key in j.fields then Some(j.fields[key]) else None
  }

  /** `value.get(key, default)`: an AttributeError on a non-dict. */
  function Get(j: Json, key: string, default: Json): Option<Json> {
    if j.JObj? then Some(if key in j.fields then j.fields[key] else default) else None
  }

  /** `value[key]` where the API documents a string. */
  function Text(j: Json, key: string): Option<string> {
    var v :- Index(j, key);
    if v.JStr? then Some(v.s) else None
  }

  /** Python truthiness (`if value:`). */
  predicate Truthy(j: Json) {
    match j
    case JNull => false
    case JBool(b) => b
    case JInt(i) => i != 0
    case JStr(s) => s != ""
    case JArr(xs) => xs != []
    case JObj(m) => m != map[]
  }

  /** `int(value)`: ints pass, bools become 0 or 1, strings are parsed, the rest raise. */
  function ToInt(j: Json): Option<int> {
    match j
    case JInt(i) => Some(i)
    case JBool(b) => Some(if b then 1 else 0)
    case JStr(s) => Numerals.ParseInt(s)
    case _ => None
  }

  /** `str(value)` as an f-string renders it; lists and dicts get a placeholder. */
  function Str(j: Json): string {
    match j
    case JNull => "None"
    case JBool(b) => if b then "True" else "False"
    case JInt(i) => Numerals.Decimal(i)
    case JStr(s) => s
    case JArr(_) => "[...]"
    case JObj(_) => "{...}"
  }

  /** An integer count sent as its decimal string converts back to that integer. */
  lemma ToIntOfDecimal(n: int)
    ensures ToInt(JStr(Numerals.Decimal(n))) == Some(n)
  {
    Numerals.DecimalRoundTrip(n);
  }
}
