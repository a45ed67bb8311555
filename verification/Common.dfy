/**
 * What several parts of the scheduler share.
 */
module Common {

  datatype Option<T> = None | Some(value: T)

  /** The least weight a group gets on a CPU. */
  const MIN_SHARES: nat := 2

  /** What a queue keeps of its runtime, in nanoseconds, when it gives the rest back. */
  const MIN_CFS_RQ_RUNTIME: nat := 1_000_000
}
