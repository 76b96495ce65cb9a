/** Failure-carrying results and the application's error codes. */
module Wrappers {

  datatype Option<+T> = None | Some(value: T) {
    function GetOr(default: T): T {
      match this
      case Some(v) => v
      case None => default
    }
  }

  /** The subset of ErrorCode that the monitoring backend raises, plus the
      runtime exceptions the backend can hit: the IllegalArgumentException of
      log ingestion for an unknown session and a NullPointerException. */
  datatype ErrorCode =
    | USER_NOT_FOUND
    | SESSION_NOT_FOUND
    | INVALID_SESSION_STATUS
    | ILLEGAL_ARGUMENT
    | NULL_POINTER

  datatype Result<+T> = Ok(value: T) | Err(error: ErrorCode)

  /** A result without a value, for operations that return void in the Java services. */
  datatype Outcome = Pass | Fail(error: ErrorCode)
}
