/** Option and Result datatypes shared by the model's modules. */
module Wrappers {

  datatype Option<+T> = None | Some(value: T)

  /** The outcome of an operation that the source can abort by throwing. */
  datatype Result<+R, +E> = Success(value: R) | Failure(error: E)
}
