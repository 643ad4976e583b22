/** Optional values and error-carrying results shared by the whole model.
    Go's `(value, error)` pairs and nil pointers are written with these. */
module Results {

  /** A value that may be absent: a nil `*string` is `None`. */
  datatype Option<+T> = None | Some(value: T) {
    function GetOr(default: T): T
    {
      match this
      case Some(v) => v
      case None => default
    }
  }

  /** A computation that either produced a value or failed with an error. */
  datatype Result<+T, +E> = Ok(value: T) | Err(error: E)
}
