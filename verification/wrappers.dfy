/** Failure-compatible wrappers used across the model: an optional value and
    a value-or-error result. */
module Wrappers {

  /** An optional value. The three members below let `:-` stop a
      computation at the first missing value. */
  datatype Option<+T> = None | Some(value: T) {

    predicate IsFailure() {
      None?
    }

    function PropagateFailure<U>(): Option<U>
      requires None?
    {
      None
    }

    function Extract(): T
      requires Some?
    {
      value
    }
  }

  /** Either a successful value or the error that stopped the computation. */
  datatype Result<+R, +E> = Success(value: R) | Failure(error: E)
}
