/** Failure-carrying datatypes shared by the model: the Rust `Option` and `Result`
    the boundary code matches on, and the outcome of running code that may panic. */
module Outcomes {

  /** Rust's `Option`. */
  datatype Option<+T> = None | Some(value: T)

  /** Rust's `Result`; the error payload is a message the boundary never inspects. */
  datatype Result<+T> = Ok(value: T) | Err(error: string) {

    /** `Result::ok`: keeps the success value and drops the error, as `if let Ok(..)` does. */
    function ToOption(): (r: Option<T>)
      ensures r.Some? <==> Ok?
      ensures r.Some? ==> r.value == value
    {
      match this
      case Ok(v) => Some(v)
      case Err(_) => None
    }
  }

  /** What evaluating a piece of Rust code did: it returned a value, or it
      started unwinding from a panic. */
  datatype Unwind<+T> = Returned(value: T) | Panicked
}
