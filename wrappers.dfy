/** Optional values and pass/fail outcomes shared by the stores. */
module Wrappers {

  /** A value that may be absent (JavaScript's `null` / `undefined`). */
  datatype Option<+T> = None | Some(value: T)

  /** The outcome of an asynchronous action that either resolves or rejects. */
  datatype Outcome<+E> = Pass | Fail(error: E)
}
