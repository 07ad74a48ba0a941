/** The types the models share. */
module Wrappers {
  datatype Option<+T> = None | Some(value: T)

  /** A handler that throws aborts its batch. */
  datatype Outcome<+S> = Done(state: S) | Thrown
}
