/** Rust's `Option` and `Result`. */
module Wrappers {

  datatype Option<T> = None | Some(value: T)

  datatype Result<T, E> = Ok(value: T) | Err(error: E) {

    /** `map_err`, and the `From` conversion that `?` applies to an error. */
    function MapErr<F>(convert: E -> F): Result<T, F> {
      match this
      case Ok(v) => Ok(v)
      case Err(e) => Err(convert(e))
    }
  }
}
