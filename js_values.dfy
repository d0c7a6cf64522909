/** JSON-shaped values as the edge functions receive them from external
    webhooks, with JavaScript's truthiness, optional property access and
    String() conversion. */
module JsValues {
  import opened Text

  /** A value as `res.json()` produces it, plus `undefined`, the result of
      reading a property that is not there. Numbers are integers in this
      model. */
  datatype JsValue =
    | JUndefined
    | JNull
    | JBool(b: bool)
    | JNum(n: int)
    | JStr(s: string)
    | JArr(items: seq<JsValue>)
    | JObj(fields: map<string, JsValue>)

  /** The values that `if (v)` and `v || w` treat as true. */
  predicate Truthy(v: JsValue) {
    match v
    case JUndefined => false
    case JNull => false
    case JBool(b) => b
    case JNum(n) => n != 0
    case JStr(s) => s != ""
    case _ => true
  }

  /** `v?.k`: a missing property, or a property of something that is not an
      object, reads as undefined. */
  function Get(v: JsValue, k: string): (r: JsValue)
    ensures r != JUndefined ==> v.JObj? && k in v.fields && r == v.fields[k]
  {
    if v.JObj? && k in v.fields then v.fields[k] else JUndefined
  }

  /** null and undefined: the values whose properties a plain `v.k` cannot
      read. */
  predicate Nullish(v: JsValue) {
    v.JNull? || v.JUndefined?
  }

  /** The TypeError message of `v.k` on a nullish `v`. */
  function ReadError(v: JsValue, k: string): string {
    "Cannot read properties of " + ToStr(v) + " (reading '" + k + "')"
  }

  /** The TypeError message of `const { k, ... } = name` when `name` holds a
      nullish value. */
  function DestructureError(v: JsValue, k: string, name: string): string {
    "Cannot destructure property '" + k + "' of '" + name + "' as it is " + ToStr(v) + "."
  }

  /** `v?.[i]` */
  function At(v: JsValue, i: nat): (r: JsValue)
    ensures r != JUndefined ==> v.JArr? && i < |v.items| && r == v.items[i]
  {
    if v.JArr? && i < |v.items| then v.items[i] else JUndefined
  }

  /** `a || b` */
  function Or(a: JsValue, b: JsValue): (r: JsValue)
    ensures Truthy(r) <==> Truthy(a) || Truthy(b)
    ensures Truthy(a) ==> r == a
  {
    if Truthy(a) then a else b
  }

  /** String(v) */
  function ToStr(v: JsValue): string
    decreases v, 1
  {
    match v
    case JUndefined => "undefined"
    case JNull => "null"
    case JBool(b) => if b then "true" else "false"
    case JNum(n) => IntToString(n)
    case JStr(s) => s
    case JArr(items) => ItemsToStr(items)
    case JObj(_) => "[object Object]"
  }

  /** Array.prototype.toString: the elements joined by commas, with null and
      undefined shown as empty. */
  function ItemsToStr(items: seq<JsValue>): string
    decreases items, 0
  {
    if items == [] then ""
    else
      var head := if items[0].JNull? || items[0].JUndefined? then "" else ToStr(items[0]);
      if |items| == 1 then head else head + "," + ItemsToStr(items[1..])
  }
}
