// Option and Result values used across the model: a Python `None` return
// becomes `None`, a raised exception that aborts an operation becomes `Err`.
module Wrappers {
  datatype Option<T> = None | Some(value: T)
  {
    function GetOr(default: T): T
    {
      if Some? then value else default
    }
  }

  datatype Result<T, E> = Ok(value: T) | Err(error: E)
}
