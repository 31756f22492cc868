/** Option and Result, the two failure-carrying types the Rust code uses. */
module Wrappers {

  datatype Option<T> = None | Some(value: T) {

    /** `Option::map`. */
    function Map<U>(f: T -> U): Option<U> {
      match this
      case None => None
      case Some(v) => Some(f(v))
    }
  }

  datatype Result<T, E> = Success(value: T) | Failure(error: E) {

    /** `Result::or`: keeps this result when it is a success, else takes `other`. */
    function Or(other: Result<T, E>): Result<T, E> {
      if Success? then this else other
    }
  }
}
