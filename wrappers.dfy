/** Option and Result, the two failure-carrying shapes used throughout the model. */
module Wrappers {

  /** `None` also stands for JavaScript's `undefined` where the source reads a
      property that may never have been assigned. */
  datatype Option<+T> = None | Some(value: T) {
    function OrElse(other: Option<T>): (r: Option<T>)
      ensures Some? ==> r == this
      ensures None? ==> r == other
    {
      if Some? then this else other
    }
  }

  /** A value or the error a rejected promise / thrown exception would carry. */
  datatype Result<+T, +E> = Ok(value: T) | Err(error: E)
}
