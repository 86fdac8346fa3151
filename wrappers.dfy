/** Option and result types for the document store's nullable fields and error paths. */
module Wrappers {

  /** A value that may be absent (a JavaScript `null` or `undefined`). */
  datatype Option<+T> = None | Some(value: T)

  /** Either the value an async call resolves to, or the error it rejects with. */
  datatype Result<+R, +E> = Success(value: R) | Failure(error: E)
}
