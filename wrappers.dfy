/** Option and Result, the two wrappers the model uses for Python's `None` and for raised errors. */
module Wrappers {

  /** A value that may be missing, as Python's `None` or a dictionary `get` that finds no key. */
  datatype Option<+T> = None | Some(value: T) {

    /** The wrapped value, or `default` when there is none (`dict.get(key, default)`). */
    function GetOr(default: T): (r: T)
      ensures Some? ==> r == value
      ensures None? ==> r == default
    {
      if Some? then value else default
    }
  }

  /** Either a value or the error that was raised instead. */
  datatype Result<+T, +E> = Ok(value: T) | Err(error: E)
}
