/** Option and Result, shared by every module of the model. */
module Common {

  /** A value that may be absent: Java's nullable references. */
  datatype Option<+T> = None | Some(value: T) {
    /** The value, or the given default when absent. */
    function GetOr(default: T): T
    {
      if Some? then value else default
    }
  }

  /** The outcome of an operation that either returns a value or raises an error code. */
  datatype Result<+T, +E> = Ok(value: T) | Err(error: E)
}
