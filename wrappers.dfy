/** Success/failure values shared by every module of the model. */
module Wrappers {

  /** A value that may be absent (JavaScript `undefined`). */
  datatype Option<+T> = None | Some(value: T) {
    function GetOr(default: T): T {
      if Some? then value else default
    }
  }

  /** The value of a call that either returns or throws. */
  datatype Result<+R, +E> = Success(value: R) | Failure(error: E)

  /** The value of a call that returns nothing or throws. */
  datatype Outcome<+E> = Pass | Fail(error: E)

  /** An octet of a binary buffer (`ArrayBuffer`, `Uint8Array`, file contents). */
  newtype Byte = x: int | 0 <= x < 256

  type Bytes = seq<Byte>
}
