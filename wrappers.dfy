/** Option and Result, for the source's null references and thrown exceptions. */
module Wrappers {

  /** A value that may be absent (a C# null reference or a missing entry). */
  datatype Option<+T> = None | Some(value: T) {

    /** The value, or `default` when absent (the C# `??` operator). */
    function GetOr(default: T): (r: T)
      ensures Some? ==> r == value
      ensures None? ==> r == default
    {
      match this
      case Some(v) => v
      case None => default
    }
  }

  /** The outcome of an operation that either returns a value or throws. */
  datatype Result<+R, +E> = Success(value: R) | Failure(error: E)
}
