/** Small value types shared by the modules of the model: Go's nil-able
    results and its `error` values. */
module Wrappers {

  /** A value that may be absent (a Go nil). */
  datatype Option<+T> = None | Some(value: T)

  /** A Go `error` value; `None` in an `Option<Error>` is the nil error. */
  datatype Error = Error(message: string)
}
