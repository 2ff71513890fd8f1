/** Option stands for a Java reference that may be null; Result and Outcome for a call that
    either returns normally or throws. */
module Wrappers {

  datatype Option<+T> = None | Some(value: T)

  datatype Result<+T, +E> = Success(value: T) | Failure(error: E)

  /** The result of a `void` Java method: it returned, or it threw `error`. */
  datatype Outcome<+E> = Pass | Fail(error: E)
}
