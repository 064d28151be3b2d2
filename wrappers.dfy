/** Optional values (Java's nullable references) and results that are either
    a value or the exception that the Java code would have thrown. */
module Wrappers {

  datatype Option<+T> = None | Some(value: T)

  datatype Result<+T, +E> = Ok(value: T) | Err(error: E)

  /** The outcome of a void method: it returns, or it throws. */
  datatype Outcome<+E> = Pass | Fail(error: E)
}
