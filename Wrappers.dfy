/** Option and Result, the two failure-carrying shapes the model uses:
    Option for JavaScript's `undefined`/`null`, Result for a call that may throw. */
module Wrappers {

  datatype Option<+T> = None | Some(value: T)

  datatype Result<+R, +E> = Success(value: R) | Failure(error: E)
}
