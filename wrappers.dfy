/** The optional value used for the `None` defaults of `RetentionModel` and `calculate_dau_with_mixed_sources`. */
module Wrappers {

  datatype Option<+T> = None | Some(value: T)

  /** The value carried by `o`, or `default` when there is none. */
  function GetOr<T>(o: Option<T>, default: T): (r: T)
    ensures o.None? ==> r == default
    ensures o.Some? ==> r == o.value
  {
    match o
    case Some(v) => v
    case None => default
  }
}
