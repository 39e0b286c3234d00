/** Error-outcome datatypes used for the results of the registry operations. */
module Wrappers {

  datatype Option<+T> = None | Some(value: T)

  /** A value or the error that prevented computing it (a thrown exception in the source). */
  datatype Result<+R, +E> = Success(value: R) | Failure(error: E)

  /** Completion of an operation that returns nothing, or the error it threw. */
  datatype Outcome<+E> = Pass | Fail(error: E)
}
