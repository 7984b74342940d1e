/** A JSON value as `JSON.parse` produces it, and the few JavaScript
    operations the application applies to such values: truthiness,
    `typeof v === 'object'` and property reads. */
module Json {
  import opened Wrappers

  datatype Json =
    | JNull
    | JBool(b: bool)
    | JNum(n: real)
    | JStr(s: string)
    | JArr(elems: seq<Json>)
    | JObj(fields: map<string, Json>)

  /** JavaScript truthiness (`if (v)`, `v || d`). `JSON.parse` never yields
      NaN, and -0 equals 0 here, so a number is falsy exactly when it is 0. */
  predicate Truthy(v: Json)
    ensures Truthy(v) <==> v != JNull && v != JBool(false) && v != JNum(0.0) && v != JStr("")
  {
    match v
    case JNull => false
    case JBool(b) => b
    case JNum(n) => n != 0.0
    case JStr(s) => s != ""
    case JArr(_) => true
    case JObj(_) => true
  }

  /** `typeof v === 'object' && v !== null`: true of objects AND of arrays. */
  predicate IsObjectTyped(v: Json) {
    v.JObj? || v.JArr?
  }

  /** The property read `v.key`; None stands for `undefined`. It is only
      asked for the backup's own field names, none of which an array, a
      primitive value or the object prototype carries. */
  function Member(v: Json, key: string): Option<Json> {
    if v.JObj? && key in v.fields then Some(v.fields[key]) else None
  }

  /** The expression `x || fallback` for a property read `x`: a truthy
      value read is kept, anything else gives the fallback. */
  function Or(x: Option<Json>, fallback: Json): (r: Json)
    ensures x.Some? && Truthy(x.value) ==> r == x.value
    ensures r == fallback || (x.Some? && r == x.value && Truthy(r))
    ensures Truthy(fallback) ==> Truthy(r)
  {
    if x.Some? && Truthy(x.value) then x.value else fallback
  }

  /** `Array.isArray(x) ? x : []` for a property read `x`: an array read
      is passed through, and a non-empty result is always the array read. */
  function ArrayOrEmpty(x: Option<Json>): (r: seq<Json>)
    ensures x.Some? && x.value.JArr? ==> r == x.value.elems
    ensures r != [] ==> x == Some(JArr(r))
  {
    if x.Some? && x.value.JArr? then x.value.elems else []
  }
}
