/** An optional value, used across the model. */
module Wrappers {

  /** An optional value: `None` where the source has nothing (no cache save, no error shown). */
  datatype Option<+T> = None | Some(value: T)
}
