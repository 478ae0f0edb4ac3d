/** Plain Option, Result and Outcome datatypes for the absent values and exceptions of the system. */
module Wrappers {

  /** A value that may be missing: a catalog lookup that found nothing, a null reference. */
  datatype Option<+T> = None | Some(value: T)

  /** A computed value, or the exception the computation throws instead. */
  datatype Result<+R, +E> = Success(value: R) | Failure(error: E)

  /** The completion of an operation that returns nothing, or the exception it throws. */
  datatype Outcome<+E> = Pass | Fail(error: E)
}
