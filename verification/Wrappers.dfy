/** Failure-compatible results shared by every module. */
module Wrappers {

  /** A value that may be missing: the source's `None`. */
  datatype Option<+T> = None | Some(value: T)

  /** The outcome of an operation that either returns or raises. */
  datatype Result<+T, +E> = Success(value: T) | Failure(error: E) {
    predicate IsFailure() { Failure? }

    function PropagateFailure<U>(): Result<U, E>
      requires Failure?
    {
      Failure(error)
    }

    function Extract(): T
      requires Success?
    {
      value
    }
  }

  /** Python's `value or default` on an optional string: the empty string is falsy. */
  function OrElse(o: Option<string>, default: string): string {
    if o.Some? && o.value != "" then o.value else default
  }

  /** `a or b` where both sides are optional strings. */
  function OrOption(a: Option<string>, b: Option<string>): Option<string> {
    if a.Some? && a.value != "" then a else b
  }
}
