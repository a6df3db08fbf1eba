/** Option and Result, used wherever the modelled code returns `Option<T>` /
    `Result<T, E>` or a Python value that may be absent. */
module Wrappers {
  datatype Option<T> = None | Some(value: T)
  {
    function UnwrapOr(default: T): T
    {
      match this
      case Some(v) => v
      case None => default
    }
  }

  datatype Result<T, E> = Ok(value: T) | Err(error: E)
}
