/** The values the source marks optional, nullable or failing. */
module Wrappers {

  datatype Option<+T> = None | Some(value: T) {

    /** The source's `??`: this value if there is one, the other otherwise. */
    function OrElse(other: Option<T>): Option<T> {
      if Some? then this else other
    }
  }

  datatype Result<+T, +E> = Ok(value: T) | Err(error: E)
}
