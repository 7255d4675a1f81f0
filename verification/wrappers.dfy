/** Failure-compatible wrappers shared by every module of the model.

  - Option<T> stands for Go's nil-able pointers (an identity not yet received).
  - Result<T, E> stands for an operation that either returns a value or ends
    the process: a Go `panic`, an `os.Exit(1)` after an error message, or an
    `error` return value. Both work with Dafny's `:-` operator.
 */
module Wrappers {

  datatype Option<+T> = None | Some(value: T) {

    predicate IsFailure() {
      None?
    }

    function PropagateFailure<U>(): Option<U>
      requires None?
    {
      None
    }

    function Extract(): T
      requires Some?
    {
      value
    }
  }

  datatype Result<+T, +E> = Success(value: T) | Failure(error: E) {

    predicate IsFailure() {
      Failure?
    }

    function PropagateFailure<U>(): Result<U, E>
      requires Failure?
    {
      Failure(error)
    }

    function Extract(): T
      requires Success?
    {
      value
    }
  }
}

/** The ways in which the modelled Go code stops instead of returning normally. */
module Faults {

  datatype Fault =
    /** `panic("... length does not match keyboard layout length")` in the Load operations */
    | LengthMismatch
    /** a Go runtime panic: index out of range */
    | IndexOutOfRange
    /** a Go runtime panic: slice bounds out of range */
    | SliceOutOfRange
    /** a Go runtime panic: send on a closed channel (a packet queued after Close) */
    | SendOnClosedChannel
    /** `os.Exit(1)` when a profile names another keyboard model than the device */
    | ModelMismatch
    /** `getDevice`: "no devices found" */
    | NoDevices
    /** `getDevice`: "invalid keyboard index" */
    | InvalidKeyboardIndex
}
