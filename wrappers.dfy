/** The Option and Result datatypes shared by the other modules. */
module Wrappers {

  /** An optional value: `None` stands for Ruby's `nil`. */
  datatype Option<+T> = None | Some(value: T)

  /** The outcome of an operation that can fail with an error of type `E`. */
  datatype Result<+T, +E> = Success(value: T) | Failure(error: E)
}
