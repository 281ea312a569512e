/** The optional value and the success-or-error value that every other module uses. */
module Wrappers {

  /** A nullable column, or an argument that may be left out. */
  datatype Option<+T> = None | Some(value: T) {
    /** The source's `x ?? fallback`. */
    function GetOr(fallback: T): T {
      match this
      case Some(v) => v
      case None => fallback
    }
  }

  /** What a service call returns, or the exception it throws. */
  datatype Result<+T, +E> = Ok(value: T) | Err(error: E)

  /** A JavaScript string is truthy when it is present and not empty. */
  predicate Truthy(text: Option<string>) {
    text.Some? && text.value != ""
  }
}
