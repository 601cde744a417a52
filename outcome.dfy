/** The two shapes every operation of the tool path returns: an optional
    value, and either a value or the message of the `Error` the code throws. */
module Outcome {

  datatype Option<+T> = None | Some(value: T)

  /** `Ok(v)` is a normal return; `Err(m)` is `throw new Error(m)` (or a
      rejected promise) carrying the message `m`. */
  datatype Result<+T> = Ok(value: T) | Err(message: string)
}
