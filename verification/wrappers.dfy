/** Optional values and fallible results, used where the vehicle wrapper either
    degrades to a sentinel or reports an error instead of a value. */
module Wrappers {

  /** An optional value: the host's "nothing hit", "no actor", "no root component". */
  datatype Option<+T> = None | Some(value: T)

  /** A value or an error message: the wrapper's thrown exceptions become `Err`. */
  datatype Result<+T, +E> = Ok(value: T) | Err(error: E)
}
