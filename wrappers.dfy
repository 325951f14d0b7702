/** Optional and fallible values shared by the other modules. */
module Wrappers {

  /** A value that may be absent. */
  datatype Option<+T> = None | Some(value: T)

  /** The outcome of a step that either yields a value or raises with a message. */
  datatype Result<+T> = Ok(value: T) | Err(message: string)
}
