/** Value types shared by every component: optional values, results and error kinds. */
module Core {

  datatype Option<+T> = None | Some(value: T)

  datatype ErrorKind =
    | Cancelled
    | InvalidArgument
    | NotFound
    | PermissionDenied
    | Network
    | RateLimit
    | Upstream
    | Parsing
    | Timeout
    | Conflict
    | Storage
    | MailboxOverflowed
    | Internal

  datatype Result<+T> = Ok(value: T) | Err(kind: ErrorKind)

  /** The retry-friendly kinds of src/oran-core/error.cpp. */
  predicate Retryable(kind: ErrorKind) {
    kind.Network? || kind.RateLimit? || kind.Timeout? || kind.Upstream?
  }
}
