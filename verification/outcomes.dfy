/** Optional values and results with an error message, shared by every module. */
module Outcomes {

  datatype Option<+T> = None | Some(value: T)

  /** A computation that either yields a value or fails with the message the source throws. */
  datatype Result<+T> = Ok(value: T) | Err(message: string)
}
