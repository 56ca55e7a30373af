/** Optional values and results with an error, the two shapes every fallible
    operation of the client returns in this model (Python's `None` and raised
    exceptions). */
module Wrappers {

  datatype Option<+T> = None | Some(value: T)

  datatype Result<+R, +E> = Success(value: R) | Failure(error: E) {
    predicate IsFailure() { Failure? }
  }
}
