/** Small result types shared by every module of the model. */
module Wrappers {

  /** A value that may be absent, as a missing dictionary key or a `None`. */
  datatype Option<+T> = None | Some(value: T) {

    /** The value, or `default` when absent (Python's `dict.get(key, default)`). */
    function GetOr(default: T): (r: T)
      ensures Some? ==> r == value
      ensures None? ==> r == default
    {
      match this
      case Some(v) => v
      case None => default
    }
  }

  /**
   * What a call into code that may raise gives back: the value it returned,
   * or the text `str(e)` of the exception it raised.
   */
  datatype Call<+T> = Returned(value: T) | Raised(detail: string)
}
