/** Values as the application's JavaScript sees them: an optional field, and
    the `a || b` fallback, where an absent value and the empty string both
    count as false. */
module Js {

  datatype Option<+T> = None | Some(value: T)

  /** `a || dflt` for a string field: the field when present and non-empty. */
  function OrElse(a: Option<string>, dflt: string): (r: string)
    ensures a.Some? && a.value != "" ==> r == a.value
    ensures (a.None? || a.value == "") ==> r == dflt
  {
    if a.Some? && a.value != "" then a.value else dflt
  }

  /** `a || b` on two optional strings. */
  function OrOpt(a: Option<string>, b: Option<string>): (r: Option<string>)
    ensures Truthy(r) <==> Truthy(a) || Truthy(b)
    ensures Truthy(a) ==> r == a
  {
    if a.Some? && a.value != "" then a else b
  }

  /** Whether an optional string is truthy in JavaScript. */
  predicate Truthy(a: Option<string>)
  {
    a.Some? && a.value != ""
  }
}
