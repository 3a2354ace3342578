/** Failure-compatible result types shared by the codec, the code generator and the VM. */
module Wrappers {

  /** A computation that either yields a value or fails with an error (a raised exception). */
  datatype Result<+T, +E> = Ok(value: T) | Err(error: E) {

    predicate IsFailure() {
      Err?
    }

    function PropagateFailure<U>(): Result<U, E>
      requires Err?
    {
      Err(error)
    }

    function Extract(): T
      requires Ok?
    {
      value
    }
  }

  /** A step that produces nothing but may fail. */
  datatype Outcome<+E> = Pass | Fail(error: E)
}
