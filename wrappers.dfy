/** The optional value used throughout the model for JavaScript `undefined`,
    Python `None` and "no such row". */
module Wrappers {

  datatype Option<+T> = None | Some(value: T) {

    /** The wrapped value, or `default` when there is none. */
    function GetOr(default: T): T {
      match this
      case Some(v) => v
      case None => default
    }
  }

  /** A computation that either produces a value or throws; `Err` carries
      the thrown error's message. */
  datatype Result<+T> = Ok(value: T) | Err(message: string)
}
