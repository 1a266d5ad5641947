/** The two pieces of JavaScript value semantics that the route handlers rely on. */
module JsValues {
  import opened Wrappers

  /** JavaScript falsiness of an optional string field: `undefined` or the empty string. */
  predicate Falsy(s: Option<string>) {
    s.None? || s.value == ""
  }

  /** The value of `s || fallback` for an optional string field. */
  function Or(s: Option<string>, fallback: string): (r: string)
    ensures Falsy(s) ==> r == fallback
    ensures !Falsy(s) ==> r == s.value && r != ""
  {
    if Falsy(s) then fallback else s.value
  }
}
