/**
 * Optional values and results, standing for Go's nil pointers and
 * `(value, error)` pairs, and the Go integer widths the model carries.
 */
module Wrappers {

  /** A Go pointer that may be nil, or a lookup that may find nothing. */
  datatype Option<+T> = None | Some(value: T)

  /** A Go `(value, error)` return where exactly one side is meaningful. */
  datatype Result<+R, +E> = Success(value: R) | Failure(error: E)

  /** Go's `int32`. */
  type Int32 = x: int | -0x8000_0000 <= x < 0x8000_0000

  /** Go's `int64`. */
  type Int64 = x: int | -0x8000_0000_0000_0000 <= x < 0x8000_0000_0000_0000
}
