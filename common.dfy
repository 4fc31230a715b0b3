/** Failure-carrying result types shared by the other modules. */
module Common {

  /** A value that may be absent: `None` stands for a Python call that raised. */
  datatype Option<+T> = None | Some(value: T)

  /** A value, or the error that aborted its computation. */
  datatype Result<+T, +E> = Success(value: T) | Failure(error: E)
}
