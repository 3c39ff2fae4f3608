// Option and Result, the two shapes every reader and writer returns.
module Wrappers {
  datatype Option<T> = None | Some(value: T) {
    function UnwrapOr(default: T): T {
      if Some? then value else default
    }
  }

  datatype Result<T, E> = Ok(value: T) | Err(error: E)
}
