/**
 * The error kinds the services return (the error constant tables are not
 * modelled, only their kind) and the outcome of an operation that may also
 * crash with a Go runtime panic.
 */
module Outcomes {

  datatype ErrorKind =
    | ValidationFailed
    | ParseError
    | DatabaseError
    | ExecError
    /** Starting or committing a transaction failed (the logger's service transaction error). */
    | TxError

  /**
   * `Panic` is a Go runtime panic: an index out of range or a failed type
   * assertion. It is not an error value; the goroutine (and, outside an HTTP
   * handler, the process) stops.
   */
  datatype Result<+T> = Ok(value: T) | Fail(kind: ErrorKind) | Panic
}
