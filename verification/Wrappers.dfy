// Results of operations that can be absent or fail.
module Wrappers {

  datatype Option<+T> = None | Some(value: T)

  /** A value, or the reason why the program threw instead of returning one. */
  datatype Result<+T, +E> = Success(value: T) | Failure(error: E)

  /** The bytes of a C++ `uint8_t` or of a Node `Buffer`. */
  type Byte = x: int | 0 <= x < 256
}
