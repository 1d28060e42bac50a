/** Failure-compatible result type shared by the schema parser, the audit run
    and the input-source choice. */
module Results {

  /** A value that may be absent (an `undefined` optional argument). */
  datatype Option<+T> = None | Some(value: T)

  /** Either a value or an error; usable with `:-`. */
  datatype Result<+T, +E> = Ok(value: T) | Err(error: E) {

    predicate IsFailure() {
      Err?
    }

    function PropagateFailure<U>(): Result<U, E>
      requires Err?
    {
      Err(error)
    }

    function Extract(): T
      requires Ok?
    {
      value
    }

    /** Converts the error with `f`, keeping a success unchanged. */
    function MapError<E2>(f: E -> E2): (r: Result<T, E2>)
      ensures r.Ok? <==> Ok?
      ensures Ok? ==> r.value == value
    {
      match this
      case Ok(v) => Ok(v)
      case Err(e) => Err(f(e))
    }
  }
}
