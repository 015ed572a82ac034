/**
  The slice of JavaScript's value model that the response validator relies on:
  the values `JSON.parse` can produce, plus `undefined` for a property that is
  missing or was explicitly set to `undefined`.
 */
module JsValues {

  /** A JavaScript value as produced by `JSON.parse` or held by a plain object.
      Numbers are modelled as reals (NaN, the infinities and -0 are not modelled). */
  datatype Json =
    | Undefined
    | Null
    | Bool(b: bool)
    | Num(n: real)
    | Str(s: string)
    | Arr(elems: seq<Json>)
    | Obj(fields: map<string, Json>)

  /** `typeof v === "object" && v !== null`: arrays are objects too. */
  predicate IsObject(v: Json) {
    v.Arr? || v.Obj?
  }

  /** JavaScript truthiness, as `!v` and `a || b` use it. */
  predicate Truthy(v: Json) {
    match v
    case Undefined => false
    case Null => false
    case Bool(b) => b
    case Num(n) => n != 0.0
    case Str(s) => s != ""
    case Arr(_) => true
    case Obj(_) => true
  }

  /** The property read `v[key]` on an object. A missing own property reads as
      `undefined`. The core never reads an array index or `length`. Of the keys
      it reads, only `values` exists on an array (`Array.prototype.values`), and
      that key is read only once `name` has been found to be a string, which it
      never is on an array; so every read on an array is modelled as `undefined`. */
  function Get(v: Json, key: string): Json
    requires IsObject(v)
  {
    match v
    case Obj(fields) => if key in fields then fields[key] else Undefined
    case Arr(_) => Undefined
  }
}
