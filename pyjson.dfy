/** The JSON values a decoded HTTP body can hold and Python's subscript operator on them. */
module PyJson {

  /** A decoded JSON document, as `response.json()` hands it to Python. */
  datatype Json =
    | JNull
    | JBool(b: bool)
    | JNum(n: int)
    | JStr(s: string)
    | JArr(items: seq<Json>)
    | JObj(fields: map<string, Json>)

  /** A subscript key: `x["name"]` or `x[0]`. */
  datatype Key = Name(name: string) | Index(i: int)

  /** What evaluating `value[key]` does: a value, a `KeyError`, or another exception
      (`TypeError` for a value that cannot be subscripted that way, `IndexError` out of range). */
  datatype Subscripted = Value(v: Json) | KeyError | OtherError

  /** Python's `v[k]` on a decoded JSON value. Dictionaries raise `KeyError` for any missing key,
      an integer key included (JSON object keys are strings); lists and strings take integer
      indices, negative ones counting from the end; everything else raises `TypeError`. */
  function Subscript(v: Json, k: Key): (r: Subscripted)
    ensures r == KeyError <==> v.JObj? && !(k.Name? && k.name in v.fields)
    ensures v.JObj? && k.Name? && k.name in v.fields ==> r == Value(v.fields[k.name])
    ensures v.JArr? && k == Index(0) ==> r == (if |v.items| > 0 then Value(v.items[0]) else OtherError)
    ensures (v.JNull? || v.JBool? || v.JNum?) ==> r == OtherError
    ensures (v.JArr? || v.JStr?) && k.Name? ==> r == OtherError
  {
    match v
    case JObj(fields) =>
      if k.Name? && k.name in fields then Value(fields[k.name]) else KeyError
    case JArr(items) =>
      if k.Index? && -|items| <= k.i < |items| then
        Value(items[if k.i < 0 then |items| + k.i else k.i])
      else OtherError
    case JStr(s) =>
      if k.Index? && -|s| <= k.i < |s| then
        Value(JStr([s[if k.i < 0 then |s| + k.i else k.i]]))
      else OtherError
    case _ => OtherError
  }

  /** The next subscript in a chain `a[k1][k2]...`: an exception raised earlier propagates. */
  function Then(r: Subscripted, k: Key): Subscripted
  {
    if r.Value? then Subscript(r.v, k) else r
  }
}
