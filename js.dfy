/** The slice of JavaScript value semantics the catalog code depends on:
    a string-typed record field that may be absent or null, truthiness,
    the `||` fallback and template-literal interpolation. */
module Js {

  datatype Option<+T> = None | Some(value: T)

  /** A string-typed field read from a JSON record or a database row:
      missing (`undefined`), `null`, or a string. */
  datatype Value = Undefined | Null | Str(s: string)

  /** JavaScript truthiness of such a field: only a non-empty string is truthy. */
  predicate Truthy(v: Value)
  {
    v.Str? && v.s != ""
  }

  /** `a || b`: the first operand when it is truthy, else the second. */
  function Or(a: Value, b: Value): Value
  {
    if Truthy(a) then a else b
  }

  /** The string produced by `${v || d}` (or by `v || d` when `d` is a
      string literal): the field when it is truthy, else the default. */
  function OrElse(v: Value, d: string): (r: string)
    ensures r != "" <==> Truthy(v) || d != ""
  {
    if Truthy(v) then v.s else d
  }

  /** The string produced by `${v}` with no fallback. */
  function Interpolate(v: Value): string
  {
    match v
    case Undefined => "undefined"
    case Null => "null"
    case Str(s) => s
  }

  /** A `string | null` result such as the one `buildLink` returns, seen as a field. */
  function FromOption(o: Option<string>): Value
  {
    match o
    case None => Null
    case Some(s) => Str(s)
  }
}
