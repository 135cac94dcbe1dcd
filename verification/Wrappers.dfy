/**
  Types that several components share.
 */
module Wrappers {

  /** A value that may be missing: a null reference, a freed queue, or a call that throws. */
  datatype Option<+T> = None | Some(value: T)

  newtype byte = x: int | 0 <= x < 256
}
