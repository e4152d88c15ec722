/** Option and Result: the two ways the storage facade reports an absent value
    (a `null` reference) or a failure (a thrown exception). */
module Results {

  /** A value that may be absent; stands for a nullable reference. */
  datatype Option<+T> = None | Some(value: T) {

    /** The value, or `default` when absent (the `??` operator). */
    function GetOr(default: T): T {
      match this
      case Some(v) => v
      case None => default
    }
  }

  /** The outcome of an operation that either completes with a value or throws `error`. */
  datatype Result<+T, +E> = Ok(value: T) | Err(error: E)
}
