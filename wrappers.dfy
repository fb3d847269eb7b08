/** Option and Result, the two shapes Rust's `Option<T>` and `anyhow::Result<T>` take in this model. */
module Wrappers {

  datatype Option<T> = None | Some(value: T) {

    /** `Option::unwrap_or`: the held value, or `default` when there is none. */
    function GetOr(default: T): T {
      match this
      case Some(v) => v
      case None => default
    }

    /** `Option::or`: this value when present, otherwise `other`. */
    function Or(other: Option<T>): Option<T> {
      match this
      case Some(_) => this
      case None => other
    }
  }

  datatype Result<T, E> = Ok(value: T) | Err(error: E)
}
