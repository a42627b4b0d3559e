/** A value or nothing, and a value or the HTTP error that a transaction is rolled back with. */
module Outcomes {
  datatype Option<+T> = None | Some(value: T)

  datatype Error = BadRequest | NotFound | Conflict | Forbidden | TooMany | Internal

  datatype Result<+T> = Ok(value: T) | Err(error: Error)
}
