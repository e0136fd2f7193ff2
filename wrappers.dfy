// Option and Result, the two failure-carrying shapes used across the model.
module Wrappers {
  datatype Option<T> = None | Some(value: T)
  {
    function GetOr(default: T): T
    {
      match this
      case None => default
      case Some(v) => v
    }
  }

  /** An exception raised by the source, carried as its message text. */
  datatype Result<T> = Ok(value: T) | Err(error: string)
}
