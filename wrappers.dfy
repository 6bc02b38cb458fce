/** Failure-compatible wrappers used across the model. */
module Wrappers {

  /** A value that may be absent (`undefined` / `null` in the application). */
  datatype Option<+T> = None | Some(value: T)

  /** The outcome of an operation that can fail with an error value. */
  datatype Result<+T, +E> = Ok(value: T) | Err(error: E)

  /** One field of a partial update: left out of the request (`Keep`) or supplied (`Set`). */
  datatype Patch<+T> = Keep | Set(value: T)

  /** The value a partially updated field ends up with. */
  function Apply<T>(p: Patch<T>, current: T): T
  {
    match p
    case Keep => current
    case Set(v) => v
  }
}
