/** Option and the outcome of one handler invocation. */
module Wrappers {

  /** A JSON field that may be absent (`event.get(...)` returning None). */
  datatype Option<+T> = None | Some(value: T)

  /** What a stage handler does when invoked: it returns a value, or an exception
      escapes it (the invocation fails with that exception's message). */
  datatype Invocation<+T> = Returned(value: T) | Raised(message: string)
}
