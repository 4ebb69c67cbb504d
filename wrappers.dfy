/** Option and Result datatypes. A `Raised` result stands for a Python
    exception; which exception class was raised is not distinguished. */
module Wrappers {

  datatype Option<+T> = None | Some(value: T) {
    function GetOr(default: T): T {
      match this
      case Some(v) => v
      case None => default
    }
  }

  datatype Result<+T> = Ok(value: T) | Raised {
    predicate IsFailure() {
      Raised?
    }

    function PropagateFailure<U>(): Result<U>
      requires Raised?
    {
      Raised
    }

    function Extract(): T
      requires Ok?
    {
      value
    }
  }

  /** What a foreign call did: returned a value, or raised an exception
      whose `str(e)` is `message`. */
  datatype Outcome<+T> = Returned(value: T) | Threw(message: string)
}
