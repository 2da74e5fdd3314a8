/** Failure-carrying result types used where the C code calls `exit`
    (through `kmeans_usage`, `log_usage` or `FAIL`) instead of returning. */
module Wrappers {

  datatype Option<+T> = None | Some(value: T)

  /** `Failure` stands for a fatal report followed by process exit. */
  datatype Result<+R> = Success(value: R) | Failure(message: string)
}
