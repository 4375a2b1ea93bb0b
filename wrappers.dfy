/** Optional values and two-way results, used wherever the source has `Optional` or a failure path. */
module Wrappers {
  datatype Option<+T> = None | Some(value: T)

  datatype Result<+R, +E> = Ok(value: R) | Err(error: E)
}
