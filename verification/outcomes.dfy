/** Values that may be missing, and computations that may fail. */
module Outcomes {
  datatype Option<+T> = None | Some(value: T)

  datatype Result<+T, +E> = Ok(value: T) | Err(error: E)

  /** What a Python expression or call does: return a value, or raise. */
  datatype Outcome<+T> = Returns(value: T) | Raises {
    predicate IsFailure() {
      Raises?
    }

    function PropagateFailure<U>(): Outcome<U>
      requires Raises?
    {
      Raises
    }

    function Extract(): T
      requires Returns?
    {
      value
    }
  }
}
