/** Option and Result, and JavaScript truthiness of an optional string. */
module Base {

  datatype Option<+T> = None | Some(value: T)

  /** A value or the error a JavaScript `throw` would have raised. */
  datatype Result<+T, +E> = Ok(value: T) | Err(error: E)

  /** `!!s` for a value that is either a string or null/undefined: the empty
      string is falsy like a missing value. */
  predicate Truthy(s: Option<string>)
  {
    s.Some? && s.value != ""
  }
}
