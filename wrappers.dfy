/** Option and Result values, used where the Go code returns a nil pointer,
    a missing value, or a value together with an `error`. */
module Wrappers {

  datatype Option<+T> = None | Some(value: T)

  /** A Go `(value, error)` pair: `Err` stands for a non-nil error, whose text
      is kept (the value returned beside it is Go's zero value). */
  datatype Result<+T> = Ok(value: T) | Err(error: string)
}
