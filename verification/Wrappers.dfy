/** Failure-carrying results shared by every module. */
module Wrappers {

  datatype Option<+T> = None | Some(value: T)

  /** The error codes the console's structured errors carry. */
  datatype Code = NotFound | Conflict | InvalidRequest | Unavailable | Internal | Draining | ClusterMismatch

  datatype Result<+T> = Ok(value: T) | Err(code: Code)
}
