/** Option and Result, the two failure-carrying shapes the game's Rust code returns. */
module Wrappers {

  /** `Option<T>`: a value that may be absent. */
  datatype Option<+T> = None | Some(value: T)

  /** `Result<T, String>`: a value, or an error message. */
  datatype Result<+T> = Ok(value: T) | Err(error: string)
}
