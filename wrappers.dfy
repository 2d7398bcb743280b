/** Optional values and error-or-value results, used for JavaScript's
    null/undefined and for thrown errors throughout the model. */
module Wrappers {

  /** `None` stands for JavaScript's `null` and `undefined`. */
  datatype Option<+T> = None | Some(value: T) {

    /** The `??` operator: the value, or `default` when there is none. */
    function GetOr(default: T): T {
      match this
      case Some(v) => v
      case None => default
    }
  }

  /** `Err` stands for an error the source throws, with its message. */
  datatype Result<+T> = Ok(value: T) | Err(message: string)
}
