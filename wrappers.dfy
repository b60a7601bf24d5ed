/** Absent-or-present values and success-or-error results, used for the
    JavaScript `undefined` and for the outcomes of the external verifiers. */
module Wrappers {

  /** A value that may be absent (JavaScript `undefined`). */
  datatype Option<+T> = None | Some(value: T)

  /** The outcome of a call that may throw: the error text is kept only for
      diagnostics and never reaches an HTTP response. */
  datatype Result<+T> = Ok(value: T) | Err(reason: string)
}
