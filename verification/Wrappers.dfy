/** A value that may be absent: the source's `null` and `undefined`. */
module Wrappers {
  datatype Option<+T> = None | Some(value: T) {
    predicate IsFailure() {
      None?
    }

    function PropagateFailure<U>(): Option<U>
      requires None?
    {
      None
    }

    function Extract(): T
      requires Some?
    {
      value
    }
  }

  /** The source's thrown errors, made part of the result. */
  datatype Result<+T, +E> = Ok(value: T) | Err(error: E)
}
