/** Failure-carrying values used across the model. */
module Outcomes {

  /** A value that may be missing: an empty footprint, a NaN quotient, ... */
  datatype Option<+T> = None | Some(value: T)

  /** The outcome of an analysis that can fail where the source raises. */
  datatype Result<+T, +E> = Success(value: T) | Failure(error: E)
}
