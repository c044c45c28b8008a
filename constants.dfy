/** The error values the scheduler returns (constant.go) and the small
    result wrappers the rest of the model uses for Go's `error` returns. */
module Constants {

  /** The three sentinel errors of the package. */
  datatype Error =
    | KeyIsExists           // "the key is exists"
    | DateTimeLessThanNow   // "the parameter date time cannot less than now"
    | KeyIsNotExists        // "the key is not exists"

  /** A Go `error` return: `Pass` stands for nil. */
  datatype Outcome = Pass | Fail(error: Error)

  /** A Go `(value, error)` pair in which exactly one side is meaningful. */
  datatype Result<T> = Ok(value: T) | Err(error: Error)

  /** A pointer that may be nil. */
  datatype Option<T> = None | Some(value: T)
}
