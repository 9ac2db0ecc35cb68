/**
  JSON values as `JSON.parse` produces them, with the two JavaScript operations the
  core applies to them: truthiness (for `a || b`) and property access (for `a?.b`).
  `Option<JsValue>` stands for a value that may be `undefined`.
 */
module Json {
  import opened Wrappers

  /** A parsed JSON value. Numbers are modelled as integers. */
  datatype JsValue =
    | JNull
    | JBool(b: bool)
    | JNum(n: int)
    | JStr(s: string)
    | JArr(items: seq<JsValue>)
    | JObj(fields: map<string, JsValue>)

  /** JavaScript truthiness; `None` is `undefined`. */
  predicate Truthy(v: Option<JsValue>) {
    match v
    case None => false
    case Some(JNull) => false
    case Some(JBool(b)) => b
    case Some(JNum(n)) => n != 0
    case Some(JStr(s)) => s != ""
    case Some(_) => true
  }

  /** `v || d`: the value itself when it is truthy, the fallback otherwise. */
  function OrElse(v: Option<JsValue>, d: JsValue): JsValue {
    if Truthy(v) then v.value else d
  }

  /**
    `v?.key`: an object's own property, `undefined` when it is missing, and `undefined`
    for every other kind of value (none of the keys the core reads is a property of
    strings, arrays, numbers or booleans, and `?.` turns null into `undefined`).
   */
  function Member(v: Option<JsValue>, key: string): Option<JsValue> {
    if v.Some? && v.value.JObj? && key in v.value.fields then Some(v.value.fields[key]) else None
  }

  /** `v?.[0]`: the first element of an array or string, or an object's property "0". */
  function First(v: Option<JsValue>): Option<JsValue> {
    match v
    case Some(JArr(items)) => if |items| > 0 then Some(items[0]) else None
    case Some(JStr(s)) => if |s| > 0 then Some(JStr([s[0]])) else None
    case Some(JObj(_)) => Member(v, "0")
    case _ => None
  }

  /** Reading a property of `null` or `undefined` without `?.` throws a TypeError. */
  predicate IsNullish(v: Option<JsValue>) {
    v.None? || v.value.JNull?
  }

  /** The message V8 gives that TypeError. */
  function NullishReadMessage(v: Option<JsValue>, key: string): string
    requires IsNullish(v)
  {
    "Cannot read properties of " + (if v.None? then "undefined" else "null") + " (reading '" + key + "')"
  }

  lemma {:induction false} OrElseIsTruthyWhenFallbackIs(v: Option<JsValue>, d: JsValue)
    requires Truthy(Some(d))
    ensures Truthy(Some(OrElse(v, d)))
    ensures Truthy(v) ==> OrElse(v, d) == v.value
    ensures !Truthy(v) ==> OrElse(v, d) == d
  {
  }
}
