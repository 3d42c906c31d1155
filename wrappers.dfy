/** Java's nullable references and thrown exceptions, as values. */
module Wrappers {

  /** A nullable reference: None stands for Java's null. */
  datatype Option<+T> = None | Some(value: T)

  /** A call that either returns a value or throws the given error. */
  datatype Result<+T, +E> = Success(value: T) | Failure(error: E)
}
