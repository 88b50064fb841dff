/** The two result shapes at the engine's boundaries: a pointer that may be null, and a call that may throw. */
module Wrappers {

  /** A value that may be absent; stands for a null pointer or an empty `unique_ptr`. */
  datatype Option<+T> = None | Some(value: T)

  /** The outcome of a call that returns nothing but may throw an exception of type E. */
  datatype Outcome<+E> = Pass | Fail(error: E)
}
