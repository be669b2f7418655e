/** The two result shapes every module below shares. */
module Wrappers {

  /** A value the source may spell `None`. */
  datatype Option<+T> = None | Some(value: T)

  /** A return or a raised exception. */
  datatype Result<+T> = Ok(value: T) | Err(error: string)
}
