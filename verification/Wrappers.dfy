/** Stock sum types shared by every module. */
module Wrappers {
  datatype Option<+T> = None | Some(value: T)

  /** What a read of shared storage gives back: a value, "no such row", or any other error. */
  datatype Read<+T> = Got(value: T) | Missing | Broken
}
