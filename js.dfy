/**
 * The JavaScript values that cross the portal's boundaries: upstream JSON
 * bodies, React state holding `any`, cookie texts, and settled promises.
 */
module Js {
  import opened Strings

  /**
   * A JavaScript value as it appears in a JSON body or in `any`-typed
   * state. `Undefined` is what reading a missing property gives. Numbers are
   * whole numbers in this model.
   */
  datatype Json =
    | Undefined
    | Null
    | Bool(b: bool)
    | Num(n: int)
    | Str(s: string)
    | Arr(items: seq<Json>)
    | Obj(fields: map<string, Json>)

  /** `v == null` in JavaScript's loose sense: null or undefined. */
  predicate Nullish(v: Json)
  {
    v.Undefined? || v.Null?
  }

  /** What `if (v)` accepts. */
  predicate Truthy(v: Json)
  {
    match v
    case Undefined => false
    case Null => false
    case Bool(b) => b
    case Num(n) => n != 0
    case Str(s) => s != ""
    case _ => true
  }

  /** `v || fallback` */
  function Or(v: Json, fallback: Json): Json
  {
    if Truthy(v) then v else fallback
  }

  /** `v?.key`: the key's value on an object, `undefined` otherwise. */
  function Field(v: Json, key: string): Json
  {
    if v.Obj? && key in v.fields then v.fields[key] else Undefined
  }

  /** The outcome of an expression that may throw a TypeError. */
  datatype Read = Threw | Got(value: Json)

  /** `v.key`: a TypeError on null or undefined, `Field` otherwise. */
  function Prop(v: Json, key: string): Read
  {
    if Nullish(v) then Threw else Got(Field(v, key))
  }

  /** `String(v)`, the text a template literal or a cookie write makes of `v`. */
  function JsString(v: Json): string
    decreases v
  {
    match v
    case Undefined => "undefined"
    case Null => "null"
    case Bool(b) => if b then "true" else "false"
    case Num(n) => IntToString(n)
    case Str(s) => s
    case Arr(items) => ItemsString(items)
    case Obj(_) => "[object Object]"
  }

  /** `String(items)`: the elements joined by commas, null and undefined as empty text. */
  function ItemsString(items: seq<Json>): string
    decreases items
  {
    if |items| == 0 then ""
    else
      var head := if Nullish(items[0]) then "" else JsString(items[0]);
      if |items| == 1 then head else head + "," + ItemsString(items[1..])
  }

  /**
   * A cookie's text. `JsonText(v)` stands for the text `JSON.stringify(v)`
   * produces: the model keeps the value rather than its characters, so
   * parsing such a text gives back exactly `v`. JavaScript loses `undefined`
   * in that round trip; the model does not.
   */
  datatype JsText = Chars(s: string) | JsonText(value: Json)

  /** Whether a cookie text passes `if (text)`; serialised JSON is never empty. */
  predicate TextTruthy(t: JsText)
  {
    t.JsonText? || t.s != ""
  }

  /**
   * `JSON.parse(t)`. Text that the portal did not produce with
   * `JSON.stringify` is treated as malformed.
   */
  function ParseJson(t: JsText): Read
  {
    match t
    case JsonText(v) => Got(v)
    case Chars(_) => Threw
  }

  /** How an awaited server action settled, seen from the client component. */
  datatype Settled<T> = Rejected | Resolved(value: T)
}
