/** Option and Result values, and the answer a scripted browser or OCR call gives. */
module Wrappers {

  datatype Option<+T> = None | Some(value: T) {
    function GetOr(default: T): T {
      match this
      case Some(v) => v
      case None => default
    }
  }

  datatype Result<+T, +E> = Ok(value: T) | Err(error: E)

  /** What one call into the browser (or the file system) does in a scripted run:
      it returns a value, or it raises. */
  datatype Reply<+T> = Returns(value: T) | Raises
}
