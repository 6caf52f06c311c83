/** Optional values and the two shapes a foreign call can end in: it returns, or it throws
    an exception carrying a message. */
module Outcomes {

  datatype Option<+T> = None | Some(value: T)

  /** A call whose return value the handler does not use: it either completes or throws. */
  datatype Outcome = Pass | Fail(message: string)

  /** A call whose return value the handler uses. */
  datatype Result<+T> = Ok(value: T) | Err(message: string)
}
