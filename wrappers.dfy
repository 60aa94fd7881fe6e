/** Optional values (a JavaScript `undefined`/`null` or a present value) and
    the outcome of a validation. */
module Wrappers {

  datatype Option<+T> = None | Some(value: T)

  datatype Result<+R, +E> = Success(value: R) | Failure(error: E)
}
