/** Swift's optional and result types: an optional value becomes Option, and
    Swift's Result, as well as the outcome of a throwing call, becomes Result. */
module Wrappers {

  /** Swift's `T?`. */
  datatype Option<+T> = None | Some(value: T)

  /** Swift's `Result<Success, Failure>`. */
  datatype Result<+R, +E> = Success(value: R) | Failure(error: E)
}
