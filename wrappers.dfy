/** The optional value used for a tag queue's rate limiter. */
module Wrappers {
  datatype Option<+T> = None | Some(value: T)
}
