/** Option and Result, the two failure-carrying shapes the Rust code uses throughout. */
module Wrappers {

  datatype Option<+T> = None | Some(value: T) {

    /** `Option::or_else`: this value when present, otherwise the fallback. */
    function Or(fallback: Option<T>): Option<T> {
      match this
      case Some(_) => this
      case None => fallback
    }
  }

  datatype Result<+R, +E> = Success(value: R) | Failure(error: E)
}
