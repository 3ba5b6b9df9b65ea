/** Failure and absence types shared by the whole model. */
module Prelude {

  /** A value that may be nil. */
  datatype Option<+T> = None | Some(value: T) {
    function GetOr(default: T): T {
      if Some? then value else default
    }

    /** SQL's COALESCE(this, current) on a nullable column. */
    function Else(current: Option<T>): Option<T> {
      if Some? then this else current
    }
  }

  datatype Result<+T, +E> = Ok(value: T) | Err(error: E)
}
