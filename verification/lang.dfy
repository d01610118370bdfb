/** Java-level notions the discovery resource relies on: the `int` type, `null`,
    the throwables its catch clauses tell apart, and the HTTP status codes of
    javax.ws.rs.core.Response.Status that it reports. */
module Lang {

  /** A Java `int`. */
  type Int32 = x: int | -0x8000_0000 <= x < 0x8000_0000

  /** A reference that may be `null`: `None` is Java's `null`. */
  datatype Option<+T> = None | Some(value: T)

  /** Response.Status.OK */
  const OK: int := 200
  /** Response.Status.BAD_REQUEST */
  const BAD_REQUEST: int := 400
  /** Response.Status.INTERNAL_SERVER_ERROR */
  const INTERNAL_SERVER_ERROR: int := 500

  /** Which check threw an IllegalArgumentException. */
  datatype Reason =
    | EmptyQuery        // ParamChecker.notEmpty on the query string
    | LimitNotBelowMax  // ParamChecker.lessThan(limit, maxLimit)
    | LimitNotPositive  // ParamChecker.greaterThan(limit, 0)
    | NegativeOffset    // ParamChecker.greaterThan(offset, -1)
    | NegativeCount     // Preconditions.checkArgument(count >= 0) in the builder
    | FromService       // thrown by the discovery service itself

  /** The throwables the resource's catch clauses distinguish. */
  datatype Failure =
    | IllegalArgument(reason: Reason)
    | NullPointer                  // Preconditions.checkNotNull on a null reference
    | WebApplication(status: int)  // a WebApplicationException carrying its own status
    | OtherThrowable               // any other exception or error

  /** A computation that either yields a value or throws. */
  datatype Result<+T> = Ok(value: T) | Err(failure: Failure) {

    predicate IsFailure() {
      Err?
    }

    function PropagateFailure<U>(): Result<U>
      requires Err?
    {
      Err(failure)
    }

    function Extract(): T
      requires Ok?
    {
      value
    }
  }
}
