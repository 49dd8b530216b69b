/**
  The pieces of JavaScript value semantics the app's logic depends on: optional values,
  string-typed properties that may be missing or `null`, the `||` default idiom, and
  template-literal interpolation.
 */
module Js {

  datatype Option<+T> = None | Some(value: T)

  /** A string-typed property of an object that arrived as JSON or as a `Partial<...>`
      record: missing (`undefined`), `null`, or a string. */
  datatype Field = Absent | Null | Text(s: string)

  /** JavaScript truthiness of such a property: only a non-empty string is truthy. */
  predicate Truthy(f: Field) {
    f.Text? && f.s != ""
  }

  /** `f || fallback`: the property when it is truthy, otherwise the fallback. */
  function Or(f: Field, fallback: string): string {
    if Truthy(f) then f.s else fallback
  }

  /** `${f}` inside a template literal. */
  function Interpolate(f: Field): string {
    match f
    case Absent => "undefined"
    case Null => "null"
    case Text(s) => s
  }
}
