/** Option and the outcome of an awaited .NET task. */
module Wrappers {

  /** A value that may be absent: C#'s `null` for reference types and `T?`. */
  datatype Option<+T> = None | Some(value: T) {

    /** C#'s `x ?? fallback`. */
    function GetOr(fallback: T): T {
      match this
      case Some(v) => v
      case None => fallback
    }
  }

  /**
   * How an awaited call ended: it ran to completion with a value, or it threw.
   * The exception's type and message are not modelled: every catch block of the
   * modelled code catches `Exception`.
   */
  datatype Fallible<+T> = Completed(value: T) | Faulted {

    /** The value of a `try { ... } catch (Exception) { return fallback; }` around the call. */
    function CatchAll(fallback: T): T {
      match this
      case Completed(v) => v
      case Faulted => fallback
    }
  }
}
