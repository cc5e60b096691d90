/** Option and Result: absent values and failures as plain data. */
module Wrappers {

  /** A value that may be absent: JavaScript's `undefined`/`null` become None. */
  datatype Option<+T> = None | Some(value: T)

  /** Either a value or the error that prevented it. */
  datatype Result<+R, +E> = Success(value: R) | Failure(error: E)
}
