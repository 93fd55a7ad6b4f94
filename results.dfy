/** Option and Result values, used where the Java code returns null-able
    values or throws. */
module Results {

  datatype Option<+T> = None | Some(value: T)
  {
    /** The value, or `default` when there is none (Guava's `Optional.or`). */
    function GetOr(default: T): T
    {
      match this
      case Some(v) => v
      case None => default
    }
  }

  datatype Result<+T, +E> = Success(value: T) | Failure(error: E)
}
