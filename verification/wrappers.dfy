/** Failure-carrying values shared by every module: Go's `(T, error)` pairs
    become a Result, a bare `error` becomes an Outcome. */
module Wrappers {

  datatype Option<T> = None | Some(value: T)

  /** A value, or the text of the Go error that replaced it. */
  datatype Result<T> = Ok(value: T) | Err(error: string)

  /** A Go `error` return: nil (Pass) or an error with its text (Fail). */
  datatype Outcome = Pass | Fail(error: string)
}
