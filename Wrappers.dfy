/** Failure-compatible wrappers: `Option` for C#'s `null` and `Nullable<T>`,
    `Result` and `Outcome` for a call that either returns or throws. */
module Wrappers {

  datatype Option<+T> = None | Some(value: T)

  /** A call that returns a value or throws the exception `error`. */
  datatype Result<+R, +E> = Success(value: R) | Failure(error: E) {
    predicate IsFailure() { Failure? }

    function PropagateFailure<U>(): Result<U, E>
      requires Failure?
    {
      Failure(error)
    }

    function Extract(): R
      requires Success?
    {
      value
    }
  }

  /** A call that returns nothing or throws the exception `error`. */
  datatype Outcome<+E> = Pass | Fail(error: E) {
    predicate IsFailure() { Fail? }

    function PropagateFailure<U>(): Result<U, E>
      requires Fail?
    {
      Failure(error)
    }
  }

  /** `m[k]` when the key is present. */
  function Get<K, V>(m: map<K, V>, k: K): Option<V>
  {
    if k in m then Some(m[k]) else None
  }
}

/** The exceptions the modelled code can raise. */
module Faults {

  datatype Fault =
    | ArgumentNull(paramName: string)       // ArgumentNullException
    | InvalidOperation(message: string)     // InvalidOperationException
    | ArgumentOutOfRange(paramName: string) // ArgumentOutOfRangeException
    | NullReference                         // NullReferenceException
}
