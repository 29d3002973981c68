/** Option and Result, the two wrappers the Rust code uses for absent values and failures. */
module Results {

  datatype Option<+T> = None | Some(value: T) {
    /** `unwrap_or`: the carried value, or `default` when absent. */
    function GetOr(default: T): T {
      match this
      case Some(v) => v
      case None => default
    }
  }

  datatype Result<+T, +E> = Ok(value: T) | Err(error: E)

  /** The unit value `()` returned by Rust operations that only succeed or fail. */
  datatype Unit = Unit
}
