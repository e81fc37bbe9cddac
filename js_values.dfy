/// The JavaScript values the two stores and the post page work with:
/// nullable strings, truthiness, the `||` operator, and the way an
/// awaited HTTP request settles.
module JsValues {

  /** A value that may be `null` or `undefined` (both are `None`). */
  datatype Option<+T> = None | Some(value: T) {

    /** `x ?? default`, written `x || default` where `x` is never falsy but nullish. */
    function GetOr(default: T): T
    {
      match this
      case Some(v) => v
      case None => default
    }
  }

  /** JavaScript truthiness of a string-or-nullish value: `null`, `undefined` and `""` are falsy. */
  predicate Truthy(s: Option<string>)
  {
    s.Some? && s.value != ""
  }

  /** `a || b` on string-or-nullish values: `a` when it is truthy, otherwise `b` as it is. */
  function Or(a: Option<string>, b: Option<string>): Option<string>
  {
    if Truthy(a) then a else b
  }

  /** How an awaited request settles: resolved with the response data, or
      rejected with an error whose `response.data.message` may be missing. */
  datatype Reply<+T> = Ok(value: T) | Fail(message: Option<string>)

  /** `err.response?.data?.message || fallback`. */
  function ErrorText(message: Option<string>, fallback: string): string
  {
    Or(message, Some(fallback)).GetOr(fallback)
  }

  lemma ErrorTextFallsBack(message: Option<string>, fallback: string)
    ensures Truthy(message) ==> ErrorText(message, fallback) == message.value
    ensures !Truthy(message) ==> ErrorText(message, fallback) == fallback
  {
  }
}
