/** The JavaScript values the controllers read from a request: a body or query field
    may be `undefined`, and most checks test a field's truthiness. */
module Js {

  /** A value that may be `undefined`. */
  datatype Option<T> = None | Some(value: T)

  /** JavaScript truthiness of a string that may be undefined: `undefined` and `""` are falsy. */
  predicate Truthy(o: Option<string>)
  {
    o.Some? && o.value != ""
  }

  /** A destructuring default, `const { x = d } = obj`: it replaces `undefined` only, never `""`. */
  function Default(o: Option<string>, d: string): string
  {
    if o.Some? then o.value else d
  }

  /** `a && b` on two strings: `a` when `a` is falsy, otherwise `b`. */
  function And(a: string, b: string): string
  {
    if a == "" then a else b
  }
}
