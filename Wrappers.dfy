/** Optional values, results and outcomes shared by the modules of this model. */
module Wrappers {

  /** A value that may be absent: `null`/`undefined` in the modelled program. */
  datatype Option<+T> = None | Some(value: T)

  /** A call that either yields a value or fails with an error. */
  datatype Result<+R, +E> = Success(value: R) | Failure(error: E)

  /** A call that either completes or fails with an error, yielding nothing. */
  datatype Outcome<+E> = Pass | Fail(error: E)
}
