/** Stand-ins for C#'s null and for exceptions. */
module Wrappers {

  /** A C# value that may be null: `Null`, or `Some(value)`. */
  datatype Option<+T> = Null | Some(value: T) {

    /** `x ?? fallback` */
    function OrElse(fallback: T): T {
      match this
      case Null => fallback
      case Some(v) => v
    }
  }

  /** The result of code that may throw: `Ok(value)`, or `Fail(message)` carrying the
      exception's message. */
  datatype Result<+T> = Ok(value: T) | Fail(message: string)

  /** The result of code that returns nothing but may throw. */
  datatype Outcome = Done | Raised(message: string)
}
