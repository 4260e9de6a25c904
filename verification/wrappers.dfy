/** Optional values and the outcomes of awaited backend calls. */
module Wrappers {

  /** A value that may be absent; stands for JavaScript's `null` / `undefined`. */
  datatype Option<+T> = None | Some(value: T)

  /** How one awaited backend call settled: the parsed payload it resolved
      with, or the message of the error it rejected with. */
  datatype Result<+T> = Ok(value: T) | Err(message: string)
}
