/** Option and Result wrappers shared by the modules of the walk-in queue model. */
module Common {

  /** A value that may be absent: a nullable column or an optional form field. */
  datatype Option<+T> = None | Some(value: T)

  /** The outcome of an operation that may be refused. */
  datatype Result<+T, +E> = Success(value: T) | Failure(error: E)
}
