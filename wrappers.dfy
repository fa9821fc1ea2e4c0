/** Option and Result, the two wrappers the updater's operations return. */
module Wrappers {
  datatype Option<+T> = None | Some(value: T)

  /** The outcome of a fallible step: `anyhow::Result` in the updater. */
  datatype Result<+T, +E> = Ok(value: T) | Err(error: E)
}
