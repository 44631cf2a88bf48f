/** Optional values, results and outcomes shared by the list store modules. */
module Wrappers {

  /** A value that may be absent; `None` stands for SQL NULL or a JavaScript null/undefined. */
  datatype Option<+T> = None | Some(value: T)

  /** The value of a statement that either produces a result or is rejected. */
  datatype Result<+R, +E> = Success(value: R) | Failure(error: E)

  /** The outcome of a statement that produces nothing but may fail. */
  datatype Outcome<+E> = Pass | Fail(error: E)
}
