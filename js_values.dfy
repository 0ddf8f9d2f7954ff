/** The few JavaScript value rules the daily report screen relies on: a property
    read that may yield `undefined`, truthiness and `||` on strings, strict
    equality, and how React renders an `undefined` text child. */
module JsValues {

  /** A value that may be absent: `None` stands for JavaScript's `undefined`
      (a property read on a row that lacks the property) or for `null`
      (a query that returned no data). */
  datatype Option<T> = None | Some(value: T)

  /** JavaScript truthiness of a string-or-undefined value: `undefined` and the
      empty string are falsy, every other string is truthy. */
  predicate Truthy(v: Option<string>)
  {
    v.Some? && v.value != ""
  }

  /** `a || b` on string-or-undefined operands: `a` when it is truthy, else `b`. */
  function Or(a: Option<string>, b: Option<string>): Option<string>
  {
    if Truthy(a) then a else b
  }

  /** `v === s` for a string `s`: `undefined` is never strictly equal to a string. */
  predicate StrictEquals(v: Option<string>, s: string)
  {
    v == Some(s)
  }

  /** The text React shows for a string-or-undefined child: nothing for `undefined`. */
  function Render(v: Option<string>): string
  {
    match v
    case None => ""
    case Some(s) => s
  }

  /** `data || []` for a query result that may be `null`. */
  function OrEmpty<T>(data: Option<seq<T>>): seq<T>
  {
    match data
    case None => []
    case Some(s) => s
  }
}
