/** Optional values and results; `None` plays the part of JavaScript's `null`/`undefined`. */
module Wrappers {
  datatype Option<T> = None | Some(value: T)

  datatype Result<T, E> = Ok(value: T) | Err(error: E)

  /** One field of an object spread `{ ...current, ...patch }`: a key present in the patch wins. */
  function Override<T>(current: T, patch: Option<T>): (r: T)
    ensures patch.None? ==> r == current
    ensures patch.Some? ==> r == patch.value
  {
    match patch
    case None => current
    case Some(v) => v
  }
}
