/** Failure and optional values shared by the other modules. */
module Prelude {
  datatype Option<+T> = None | Some(value: T)

  datatype Result<+T, +E> = Ok(value: T) | Err(error: E)

  /** Whether an optional deadline has been reached. */
  predicate Passed(deadline: Option<nat>, now: nat) {
    deadline.Some? && deadline.value <= now
  }
}
