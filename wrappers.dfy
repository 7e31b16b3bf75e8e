/** Small types shared by every module. */
module Wrappers {
  /** Optional values, standing in for Python's `X | None`. */
  datatype Option<+T> = None | Some(value: T)

  /** A `datetime`, as an ordered timestamp supplied by the caller. */
  type Time = int
}
