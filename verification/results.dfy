/** Failure-carrying values shared by every layer of the client model. */
module Results {

  /** A value that may be missing, as a Python `dict` lookup guarded by `in`. */
  datatype Option<+T> = None | Some(value: T)

  /** The exceptions the client lets escape, grouped by the class the code raises.
      - Transport: urllib's URLError (HTTPError included); the only one that is retried.
      - WWPass: WWPassException, raised for a refusing service and for an unparsable ticket.
      - Unexpected: anything else that escapes unchanged, such as a failed `assert`,
        a `KeyError` on a missing response field, or a failure while reading the reply. */
  datatype Error =
    | Transport(reason: string)
    | WWPass(message: string)
    | Unexpected(reason: string)

  /** The outcome of a call: a value, or the exception it raised. */
  datatype Result<+T> = Ok(value: T) | Err(error: Error)
}
