/** Small datatypes shared by the model's modules. */
module Wrappers {

  /** Swift's `Optional`. */
  datatype Option<+T> = None | Some(value: T) {
    function GetOr(default: T): T {
      match this
      case Some(v) => v
      case None => default
    }
  }

  /** A Swift `throws` call: either the value or the thrown error. */
  datatype Result<+T, +E> = Success(value: T) | Failure(error: E)

  /** An event parameter or attribute value, which the SDK types as `Any`. */
  datatype Value = VString(s: string) | VInt(i: int) | VBool(b: bool) | VDate(secondsSince1970: int)
}
