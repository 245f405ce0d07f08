/** Option and Result values shared by the other modules. */
module Wrappers {

  /** A value that may be missing: Python's `None` versus a value. */
  datatype Option<+T> = None | Some(value: T)

  /** The outcome of a call that may raise: a value, or the error it raised. */
  datatype Result<+R, +E> = Success(value: R) | Failure(error: E)

  /**
   * An optional string counts as given when Python's truthiness test
   * (`if tone:`, `model or default`) accepts it: present and not empty.
   */
  predicate Given(field: Option<string>)
  {
    field.Some? && field.value != ""
  }
}
