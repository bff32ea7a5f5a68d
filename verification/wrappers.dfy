/** Failure-carrying datatypes used across the model: `Option` for the
    iterator's end-of-sequence signal and `Result` for the configuration
    setters, which abort on invalid values. */
module Wrappers {

  datatype Option<+T> = None | Some(value: T)

  datatype Result<+T, +E> = Success(value: T) | Failure(error: E)
}
