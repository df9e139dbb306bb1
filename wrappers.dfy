/** Option and Result: a nullable value (a SQL NULL, a nil pointer) and a value-or-error pair. */
module Wrappers {

  datatype Option<+T> = None | Some(value: T)

  datatype Result<+T, +E> = Ok(value: T) | Err(error: E)
}
