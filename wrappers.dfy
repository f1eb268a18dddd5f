/** Optional values and error-or-value results shared by the other modules. */
module Wrappers {

  /** A nullable value: Django's `null=True` fields and Python's `None`. */
  datatype Option<+T> = None | Some(value: T)

  /** The outcome of an operation that can be refused. */
  datatype Result<+T, +E> = Ok(value: T) | Err(error: E)
}
