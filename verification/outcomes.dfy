/** Failure-compatible wrappers used by the model: `Result` for operations that
    can throw (the only exception the writer can raise is a RangeError from an
    out-of-bounds buffer access) and `Option` for decoders that may reject their
    input. Both can be used with `:-`. */
module Outcomes {

  /** The JavaScript exceptions the modelled code can raise. */
  datatype JsError = RangeError

  datatype Result<+T> = Ok(value: T) | Err(error: JsError) {
    predicate IsFailure() {
      Err?
    }

    function PropagateFailure<U>(): Result<U>
      requires Err?
    {
      Err(error)
    }

    function Extract(): T
      requires Ok?
    {
      value
    }
  }

  datatype Option<+T> = None | Some(value: T) {
    predicate IsFailure() {
      None?
    }

    function PropagateFailure<U>(): Option<U>
      requires None?
    {
      None
    }

    function Extract(): T
      requires Some?
    {
      value
    }
  }
}
