/** Failure-aware wrappers used across the model: an optional value in place
    of a Java `null`, and a result that is either a value or the exception
    the Java code would raise. */
module Wrappers {

  datatype Option<+T> = None | Some(value: T)

  datatype Result<+T, +E> = Ok(value: T) | Err(error: E)
}
