/** Result types shared by every component of the model. */
module Wrappers {

  datatype Option<+T> = None | Some(value: T)
  {
    function UnwrapOr(default: T): T {
      if Some? then value else default
    }
  }

  /** The outcome of a fallible operation; `Err` carries the reason it gave. */
  datatype Result<+T, +E> = Ok(value: T) | Err(error: E)
  {
    function UnwrapOr(default: T): T {
      if Ok? then value else default
    }
  }

  function Max(a: int, b: int): int {
    if a < b then b else a
  }
}
