/**
 * Small shared vocabulary: optional values and results carrying an error.
 */
module Wrappers {

  datatype Option<T> = None | Some(value: T)

  datatype Result<T, E> = Ok(value: T) | Err(error: E)

  /** A generated UUID string: never empty. */
  type FreshId = s: string | s != "" witness "0"
}
