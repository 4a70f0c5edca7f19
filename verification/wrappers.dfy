/** Optional and fallible values, used for the optional target triple and for the
    error exits of the outputs command. */
module Wrappers {

  datatype Option<+T> = None | Some(value: T)

  datatype Result<+R, +E> = Ok(value: R) | Err(error: E)
}
