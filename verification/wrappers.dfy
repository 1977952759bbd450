/** Small failure-carrying datatypes shared by every module of the model. */
module Wrappers {

  /** A value that JavaScript may leave `undefined`. */
  datatype Option<+T> = None | Some(value: T) {
    function GetOr(default: T): T {
      match this
      case Some(v) => v
      case None => default
    }
  }

  /** A completed call that either returned a value or threw an error. */
  datatype Result<+T, +E> = Ok(value: T) | Err(error: E)

  /** The outcome of a call into a collaborator this model does not see:
      it resolved with a value, or it rejected with an error message. */
  datatype Outcome<+T> = Success(value: T) | Failure(message: string)

  /** JavaScript truthiness of an optional string: `undefined` and `""` are falsy. */
  predicate Truthy(s: Option<string>) {
    s.Some? && s.value != ""
  }

  /** `value || fallback` for an optional string. */
  function OrElse(s: Option<string>, fallback: string): string {
    if Truthy(s) then s.value else fallback
  }
}
