/** Canonical error space and the status types the generator returns. */
module Errors {

  /** The canonical error codes (`error::GoogleError`); `Ok` is code 0. */
  datatype Code =
    | Ok | Cancelled | Unknown | InvalidArgument | DeadlineExceeded | NotFound
    | AlreadyExists | PermissionDenied | ResourceExhausted | FailedPrecondition
    | Aborted | OutOfRange | Unimplemented | Internal | Unavailable | DataLoss
    | Unauthenticated

  /** A status: a code and a human-readable message. */
  datatype Status = Status(code: Code, message: string) {
    predicate IsOk() { code == Ok }
  }

  const OK_STATUS := Status(Ok, "")

  /** A status that reports a failure. */
  type ErrorStatus = s: Status | s.code != Ok witness Status(Unknown, "")

  /** Either a value or the failure that prevented computing it. */
  datatype StatusOr<T> = Value(value: T) | Failure(status: ErrorStatus)

  datatype Option<T> = None | Some(value: T)
}
