/** Failure-carrying results for the Python code's exceptions, and Python truthiness of optional strings. */
module Common {

  datatype Option<+T> = None | Some(value: T)

  /** A computation that either yields a value or raises the given error. */
  datatype Result<+R, +E> = Success(value: R) | Failure(error: E)

  /** A check that either passes or raises the given error. */
  datatype Outcome<+E> = Pass | Fail(error: E)

  /** Python truthiness of a `str | None`: `None` and `""` are falsy. */
  predicate Truthy(s: Option<string>)
  {
    s.Some? && s.value != ""
  }
}
