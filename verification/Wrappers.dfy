/** Stock result types shared by every module. */
module Wrappers {
  datatype Option<+T> = None | Some(value: T) {
    function GetOr(default: T): T {
      match this
      case Some(v) => v
      case None => default
    }
  }

  datatype Result<+T, +E> = Ok(value: T) | Err(error: E)

  /** One octet. Arithmetic on it is ordinary integer arithmetic. */
  type byte = b: int | 0 <= b < 256

  type Bytes = seq<byte>
}
