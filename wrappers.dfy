/**
 * Optional values and the outcome of calls that may fail (a rejected promise,
 * a thrown exception), shared by every component of the model.
 */
module Wrappers {

  /** A value that may be missing: `undefined` / `null` in the source. */
  datatype Option<+T> = None | Some(value: T)

  /** The outcome of an asynchronous call: its resolved value or the error it was rejected with. */
  datatype Result<+T, +E> = Success(value: T) | Failure(error: E)
}
