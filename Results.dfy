/** Outcomes of the gateway's start-up steps. The C# code signals a failed
    step by throwing InvalidOperationException with a message; here that
    becomes a value carrying the same message. */
module Results {

  datatype Option<+T> = None | Some(value: T)

  /** A check that either passes or fails with the exception's message. */
  datatype Outcome = Pass | Fail(message: string)

  /** A step that either yields a value or fails with the exception's message. */
  datatype Result<+T> = Ok(value: T) | Err(message: string)
}
