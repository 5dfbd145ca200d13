/** Failure-carrying result types shared by every component. */
module Outcomes {

  datatype Option<+T> = None | Some(value: T)

  /** The source throws; the model returns the thrown reason instead. */
  datatype Result<+T, +E> = Ok(value: T) | Err(error: E)

  /** A durable write seen from its caller: it may throw after it has already taken effect
      (the rename is done, then the directory sync fails). */
  datatype WriteOutcome = Done | Lost | Half
}
