/** Failure-compatible result types shared by the telemetry and the track modules. */
module Wrappers {

  datatype Option<+T> = None | Some(value: T)

  /** Either a computed value or the error the Python code raises. */
  datatype Result<+R, +E> = Success(value: R) | Failure(error: E)
}
