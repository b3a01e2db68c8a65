/** Failure-carrying datatypes shared by every handler of the model. */
module Wrappers {

  /** A value that may be absent: Python's `None`, an unset relation field
      (`False`), or an optional pydantic field. */
  datatype Option<+T> = None | Some(value: T)
  {
    function GetOr(default: T): T {
      match this
      case Some(v) => v
      case None => default
    }
  }

  /** The response envelope every tool returns: `{"success": True, "result": ...}`
      or `{"success": False, "error": ...}`. It also carries the failures of
      intermediate steps (a malformed date, an out-of-range date), whose message
      ends up in the `error` field. */
  datatype Envelope<+T> = Success(result: T) | Failure(error: string)
  {
    predicate IsSuccess() { Success? }
  }
}
