/** Failure-carrying results for the operations that throw in the simulator. */
module Wrappers {

  datatype Option<+T> = None | Some(value: T)

  /** A value, or the message of the exception the operation throws. */
  datatype Result<+T> = Ok(value: T) | Err(message: string)

  /** Success without a value, or the message of the exception thrown. */
  datatype Outcome = Pass | Fail(message: string)

  function Min(a: int, b: int): int { if a <= b then a else b }

  function Max(a: int, b: int): int { if a >= b then a else b }
}
