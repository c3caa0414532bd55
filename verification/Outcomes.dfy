/** Shared result types: optional values, and computations that may throw. */
module Outcomes {
  datatype Option<+T> = None | Some(value: T)

  datatype Outcome<+T, +E> = Ok(value: T) | Threw(error: E)
}
