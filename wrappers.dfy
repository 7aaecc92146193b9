/** Optional values and success/failure outcomes, used where the Java code
    uses `null` or throws an exception. */
module Wrappers {

  /** A Java reference that may be `null`. */
  datatype Option<+T> = None | Some(value: T)

  /** The outcome of a call into a collaborator that may throw. */
  datatype Result<+R, +E> = Success(value: R) | Failure(error: E)
}
