/** Result shapes shared by the store and the helper. */
module Errors {

  datatype Option<+T> = None | Some(value: T)

  datatype Result<+T, +E> = Ok(value: T) | Err(error: E)

  /** A call that returns nothing but may fail (a Go `error` that is nil or not). */
  datatype Outcome<+E> = Pass | Fail(error: E)

  /** The kinds of `errors.Error` the helper produces when it wraps a failure. */
  datatype Kind = BadInput | NotFound | Default

  /** What the data-access layer reports from a call. */
  datatype DalError = RecordNotFound | Duplication | StoreFault
}
