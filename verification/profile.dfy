/** ProfileRun and `profile_func`: driving the target function between
    snapshot captures, and pairing consecutive snapshot runs into comparisons. */
module Profile {
  import opened Settings
  import opened Snapshots

  /** The process-wide state the run drives: whether the tracer is tracing, how
      many snapshots it has captured, and how many times the target function
      has been invoked. A capture records the latter two. */
  class Process {
    var tracing: bool
    var captures: nat
    var calls: nat

    constructor ()
      ensures !tracing && captures == 0 && calls == 0
    {
      tracing, captures, calls := false, 0, 0;
    }

    /** `tracemalloc.start()`. */
    method Start()
      modifies this
      ensures tracing
      ensures captures == old(captures) && calls == old(calls)
    {
      tracing := true;
    }

    /** `tracemalloc.stop()`. */
    method Stop()
      modifies this
      ensures !tracing
      ensures captures == old(captures) && calls == old(calls)
    {
      tracing := false;
    }

    /** `tracemalloc.take_snapshot()`: only possible while tracing. */
    method TakeSnapshot() returns (s: Snapshot)
      requires tracing
      modifies this
      ensures s == Taken(old(captures), calls)
      ensures captures == old(captures) + 1
      ensures tracing && calls == old(calls)
    {
      s := Taken(captures, calls);
      captures := captures + 1;
    }

    /** `settings.func()`: the return value is discarded. */
    method InvokeTarget()
      modifies this
      ensures calls == old(calls) + 1
      ensures tracing == old(tracing) && captures == old(captures)
    {
      calls := calls + 1;
    }
  }

  datatype ProfileRun = ProfileRun(snapshotRuns: seq<SnapshotRun>, funcFileNames: seq<string>, funcName: string)

  /** How many times `for i in range(1, runCount + 1)` runs. */
  function Iterations(runCount: int): (n: nat)
    ensures runCount >= 0 ==> n == runCount
    ensures runCount <= 0 ==> n == 0
  {
    if runCount > 0 then runCount else 0
  }

  /** The snapshot runs are numbered 0, 1, ... in order, iteration 0 being the
      capture taken before any invocation. */
  ghost predicate IterationsFromZero(runs: seq<SnapshotRun>) {
    forall i :: 0 <= i < |runs| ==> runs[i].iteration == i
  }

  /** `profile_func`: start tracing, capture snapshot 0, then invoke the target
      and capture once per iteration, then stop. The result has `runCount + 1`
      snapshot runs (one when `runCount <= 0`), numbered 0..runCount, each with
      the given settings; snapshot `i` is the `i`-th capture of the run and was
      taken after exactly `i` invocations made by this run. */
  method ProfileFunc(settings: ProfileRunSettings, p: Process) returns (run: ProfileRun)
    modifies p
    ensures !p.tracing
    ensures p.calls == old(p.calls) + Iterations(settings.runCount)
    ensures p.captures == old(p.captures) + Iterations(settings.runCount) + 1
    ensures |run.snapshotRuns| == Iterations(settings.runCount) + 1
    ensures IterationsFromZero(run.snapshotRuns)
    ensures forall i :: 0 <= i < |run.snapshotRuns| ==>
      run.snapshotRuns[i] == SnapshotRun(i, Taken(old(p.captures) + i, old(p.calls) + i), settings)
    ensures run.funcFileNames == settings.funcFileNames && run.funcName == settings.funcName
  {
    ghost var captures0, calls0 := p.captures, p.calls;
    p.Start();
    var initial := p.TakeSnapshot();
    var snapshotRuns := [SnapshotRun(0, initial, settings)];
    for i := 1 to Iterations(settings.runCount) + 1
      invariant p.tracing
      invariant p.calls == calls0 + i - 1 && p.captures == captures0 + i
      invariant |snapshotRuns| == i
      invariant forall k :: 0 <= k < i ==>
        snapshotRuns[k] == SnapshotRun(k, Taken(captures0 + k, calls0 + k), settings)
    {
      p.InvokeTarget();
      var s := p.TakeSnapshot();
      snapshotRuns := snapshotRuns + [SnapshotRun(i, s, settings)];
    }
    p.Stop();
    run := ProfileRun(snapshotRuns, settings.funcFileNames, settings.funcName);
  }

  /** One comparison per consecutive pair of snapshot runs, in order. */
  function ComparisonsOf(runs: seq<SnapshotRun>, t: Tracer): (r: seq<SnapshotDiffRun>)
    ensures |r| == if |runs| == 0 then 0 else |runs| - 1
  {
    if |runs| < 2 then []
    else ComparisonsOf(runs[..|runs| - 1], t) + [Compare(runs[|runs| - 2], runs[|runs| - 1], t)]
  }

  /** Entry `j` of the comparisons compares run `j` with run `j + 1`, in that
      order. */
  lemma {:induction false} ComparisonsOfPairs(runs: seq<SnapshotRun>, t: Tracer, j: nat)
    requires j + 1 < |runs|
    ensures ComparisonsOf(runs, t)[j] == Compare(runs[j], runs[j + 1], t)
  {
    var prefix := runs[..|runs| - 1];
    if j + 2 < |runs| {
      ComparisonsOfPairs(prefix, t, j);
      assert prefix[j] == runs[j] && prefix[j + 1] == runs[j + 1];
    }
  }

  /** `ProfileRun.comparisons`: the loop over `enumerate(snapshot_runs)` that
      appends `__compare(runs[i - 1], runs[i])` for every `i != 0`. */
  method Comparisons(run: ProfileRun, t: Tracer) returns (comparisons: seq<SnapshotDiffRun>)
    ensures |comparisons| == if |run.snapshotRuns| == 0 then 0 else |run.snapshotRuns| - 1
    ensures forall j :: 0 <= j < |comparisons| ==>
      comparisons[j] == Compare(run.snapshotRuns[j], run.snapshotRuns[j + 1], t)
    ensures comparisons == ComparisonsOf(run.snapshotRuns, t)
  {
    var runs := run.snapshotRuns;
    comparisons := [];
    for i := 0 to |runs|
      invariant |comparisons| == if i == 0 then 0 else i - 1
      invariant forall j :: 0 <= j < |comparisons| ==> comparisons[j] == Compare(runs[j], runs[j + 1], t)
    {
      if i != 0 {
        comparisons := comparisons + [Compare(runs[i - 1], runs[i], t)];
      }
    }
    forall j | 0 <= j < |comparisons|
      ensures comparisons[j] == ComparisonsOf(runs, t)[j]
    {
      ComparisonsOfPairs(runs, t, j);
    }
  }

  /** For the snapshot runs of a profile (numbered 0, 1, ...), comparison `j`
      is between iterations `j` and `j + 1` (so a profile of `runCount + 1`
      snapshot runs has `runCount` comparisons, the earlier run first). */
  lemma ComparisonIterations(runs: seq<SnapshotRun>, t: Tracer, j: nat)
    requires IterationsFromZero(runs)
    requires j + 1 < |runs|
    ensures ComparisonsOf(runs, t)[j].iterations == (j, j + 1)
    ensures ComparisonsOf(runs, t)[j].limit == DefaultLimit
  {
    ComparisonsOfPairs(runs, t, j);
  }
}
