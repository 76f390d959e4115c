/** Failure-compatible wrappers used across the model.
    `Option` stands for Python's `None`-or-value returns; `Result` stands for a
    computation that either returns a value or raises an exception that the
    surrounding code does not catch. */
module Wrappers {

  datatype Option<+T> = None | Some(value: T) {

    predicate IsFailure() {
      None?
    }

    function PropagateFailure<U>(): Option<U>
      requires None?
    {
      None
    }

    function Extract(): T
      requires Some?
    {
      value
    }

    function GetOr(default: T): T {
      match this
      case Some(v) => v
      case None => default
    }
  }

  /** `Failure(reason)` is a Python exception escaping the modelled function;
      `reason` names the exception the source would raise. */
  datatype Result<+T> = Success(value: T) | Failure(reason: string) {

    predicate IsFailure() {
      Failure?
    }

    function PropagateFailure<U>(): Result<U>
      requires Failure?
    {
      Failure(reason)
    }

    function Extract(): T
      requires Success?
    {
      value
    }
  }
}
