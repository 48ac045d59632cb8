/** The abstract records the allocation tracer hands back.

    A tracer statistic (grouped allocations) and a tracer statistic diff (the change
    of one group between two snapshots) are reduced to what the profiler reads from
    them: a size or size delta in bytes, the file name and line number of the first
    frame of the traceback, and the traceback's total frame count. */
module Records {

  datatype Option<+T> = None | Some(value: T) {
    /** The wrapped value, or `default` when there is none. */
    function GetOr(default: T): T {
      match this
      case Some(v) => v
      case None => default
    }
  }

  /** One grouped allocation statistic of a snapshot. */
  datatype Statistic = Statistic(size: nat, filename: string, lineno: int, totalNframe: nat)

  /** One grouped allocation delta between two snapshots; the sign is kept. */
  datatype StatisticDiff = StatisticDiff(sizeDiff: int, filename: string, lineno: int, totalNframe: nat)

  function Abs(x: int): nat {
    if x < 0 then -x else x
  }
}
