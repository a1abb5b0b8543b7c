/** An abstract JSON value, standing for what `JSON.parse` returns, and the
    handful of JavaScript operations the core applies to such values:
    truthiness, `||`, property access (plain and optional `?.`), `[0]`
    indexing and the string conversion used by `Array.prototype.join`.
    A JavaScript value that may be `undefined` is an `Option<Json>`.
    JSON numbers are integers in this model. */
module Json {
  import opened Wrappers
  import Text

  datatype Json =
    | JNull
    | JBool(b: bool)
    | JNum(n: int)
    | JStr(s: string)
    | JArr(items: seq<Json>)
    | JObj(fields: map<string, Json>)

  /** JavaScript truthiness: `undefined`, `null`, `false`, `0` and `""` are
      falsy, everything else (including empty arrays and objects) is truthy. */
  predicate Truthy(v: Option<Json>) {
    match v
    case None => false
    case Some(JNull) => false
    case Some(JBool(b)) => b
    case Some(JNum(n)) => n != 0
    case Some(JStr(s)) => s != ""
    case Some(JArr(_)) => true
    case Some(JObj(_)) => true
  }

  /** `a || b`. */
  function Or(a: Option<Json>, b: Option<Json>): (r: Option<Json>)
    ensures Truthy(a) ==> r == a
    ensures !Truthy(a) ==> r == b
  {
    if Truthy(a) then a else b
  }

  /** The message a runtime `TypeError` carries in this model. */
  const TypeErrorMessage: string := "TypeError"

  /** `v.key`: throws on `null`/`undefined`; yields `undefined` for a missing
      key or a value that is not an object. */
  function Get(v: Option<Json>, key: string): (r: Result<Option<Json>>)
    ensures r.Throw? <==> (v.None? || v == Some(JNull))
    ensures r.Ok? && r.value.Some? ==> v.Some? && v.value.JObj? && key in v.value.fields
                                       && r.value.value == v.value.fields[key]
  {
    match v
    case None => Throw(TypeErrorMessage)
    case Some(JNull) => Throw(TypeErrorMessage)
    case Some(JObj(f)) => Ok(if key in f then Some(f[key]) else None)
    case Some(_) => Ok(None)
  }

  /** `v?.key`: never throws. */
  function OptGet(v: Option<Json>, key: string): (r: Option<Json>)
    ensures r.Some? ==> v.Some? && v.value.JObj? && key in v.value.fields
                        && r.value == v.value.fields[key]
  {
    match v
    case Some(JObj(f)) => if key in f then Some(f[key]) else None
    case _ => None
  }

  /** `v[0]`: the first element of an array, the first character of a
      string, the property "0" of an object; throws on `null`/`undefined`. */
  function First(v: Option<Json>): (r: Result<Option<Json>>)
    ensures r.Throw? <==> (v.None? || v == Some(JNull))
  {
    match v
    case None => Throw(TypeErrorMessage)
    case Some(JNull) => Throw(TypeErrorMessage)
    case Some(JArr(items)) => Ok(if |items| > 0 then Some(items[0]) else None)
    case Some(JStr(s)) => Ok(if |s| > 0 then Some(JStr([s[0]])) else None)
    case Some(JObj(f)) => Ok(if "0" in f then Some(f["0"]) else None)
    case Some(_) => Ok(None)
  }

  /** `v?.[0]`: never throws. */
  function OptFirst(v: Option<Json>): Option<Json> {
    match First(v)
    case Ok(r) => r
    case Throw(_) => None
  }

  /** `String(j)` for a JSON value `j`. */
  function JsString(j: Json): string
    decreases j, 1
  {
    match j
    case JNull => "null"
    case JBool(b) => if b then "true" else "false"
    case JNum(n) => Text.IntToString(n)
    case JStr(s) => s
    case JArr(items) => JoinFrom(items, 0)
    case JObj(_) => "[object Object]"
  }

  /** `items.slice(i).join(',')`: `Array.prototype.join` renders `null`
      elements as "" and every other element with `String`. */
  function JoinFrom(items: seq<Json>, i: nat): string
    requires i <= |items|
    decreases JArr(items), 0, |items| - i
  {
    if i == |items| then ""
    else
      var piece := if items[i] == JNull then "" else JsString(items[i]);
      if i + 1 == |items| then piece else piece + "," + JoinFrom(items, i + 1)
  }

  /** A string value is rendered as itself. */
  lemma JsStringOfString(s: string)
    ensures JsString(JStr(s)) == s
  {
  }
}
