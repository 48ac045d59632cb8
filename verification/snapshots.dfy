/** SnapshotRun and SnapshotDiffRun: one captured snapshot, or the difference
    between two, seen through the run settings as a filtered, ranked and summed
    report view.

    The tracer is opaque. A snapshot is represented symbolically: a capture is
    identified by its capture index and by how many target invocations came
    before it, and filtering a snapshot yields a new snapshot that records its
    source and the filters applied. What the tracer computes from a snapshot
    (`statistics`, `compare_to`) are functions the model takes as given. */
module Snapshots {
  import opened Records
  import opened Settings
  import opened Ranking

  /** A tracer filter rule: keep (inclusive) or drop (exclusive) the traces
      whose file name matches the pattern. */
  datatype Filter = Filter(inclusive: bool, filenamePattern: string)

  const FrozenBootstrap: string := "<frozen importlib._bootstrap>"
  const UnknownFile: string := "<unknown>"

  datatype Snapshot =
    | Taken(index: nat, callsBefore: nat)
    | Filtered(source: Snapshot, filters: seq<Filter>)

  /** `snapshot.filter_traces(filters)`: a new snapshot; the source is left as
      it was (values here are immutable). */
  function FilterTraces(s: Snapshot, filters: seq<Filter>): Snapshot {
    Filtered(s, filters)
  }

  /** The tracer's computations, taken as given: the grouped statistics of a
      snapshot under a key (largest first), and `a.compare_to(b, key)`. */
  datatype Tracer = Tracer(
    moduleFile: string,
    statistics: (Snapshot, string) -> seq<Statistic>,
    compareTo: (Snapshot, Snapshot, string) -> seq<StatisticDiff>)

  function Patterns(filters: seq<Filter>): (r: seq<string>)
    ensures |r| == |filters|
  {
    seq(|filters|, i requires 0 <= i < |filters| => filters[i].filenamePattern)
  }

  /** The deny-list of inclusive mode: exactly three exclude rules, for the
      tracer's own module file, the frozen import bootstrap and unknown
      origins. */
  function InclusiveFilters(moduleFile: string): (r: seq<Filter>)
    ensures forall f :: f in r ==> !f.inclusive
    ensures Patterns(r) == [moduleFile, FrozenBootstrap, UnknownFile]
  {
    [Filter(false, moduleFile), Filter(false, FrozenBootstrap), Filter(false, UnknownFile)]
  }

  /** The allow-list of exclusive mode: one include rule per target file name,
      in the same order, so reading the patterns back gives the names. */
  function ExclusiveFilters(fileNames: seq<string>): (r: seq<Filter>)
    ensures forall f :: f in r ==> f.inclusive
    ensures Patterns(r) == fileNames
  {
    seq(|fileNames|, i requires 0 <= i < |fileNames| => Filter(true, fileNames[i]))
  }

  datatype SnapshotRun = SnapshotRun(iteration: int, snapshot: Snapshot, settings: ProfileRunSettings)

  /** The rules applied to a snapshot run, chosen by `exclusiveFilter`. */
  function SelectedFilters(run: SnapshotRun, t: Tracer): (r: seq<Filter>)
    ensures run.settings.exclusiveFilter ==>
      (forall f :: f in r ==> f.inclusive) && Patterns(r) == run.settings.funcFileNames
    ensures !run.settings.exclusiveFilter ==>
      (forall f :: f in r ==> !f.inclusive) && Patterns(r) == [t.moduleFile, FrozenBootstrap, UnknownFile]
  {
    if run.settings.exclusiveFilter then ExclusiveFilters(run.settings.funcFileNames)
    else InclusiveFilters(t.moduleFile)
  }

  /** `filtered_snapshot`: recomputed from the captured snapshot, which is the
      source of the result and is itself unchanged. */
  function FilteredSnapshot(run: SnapshotRun, t: Tracer): (r: Snapshot)
    ensures r.Filtered? && r.source == run.snapshot
    ensures r.filters == SelectedFilters(run, t)
  {
    FilterTraces(run.snapshot, SelectedFilters(run, t))
  }

  /** `filtered_snapshot.statistics(settings.key_type.value)`. */
  function AllStatistics(run: SnapshotRun, t: Tracer): seq<Statistic> {
    t.statistics(FilteredSnapshot(run, t), run.settings.keyType.Value())
  }

  function StatSize(s: Statistic): int { s.size }

  function TopStats(run: SnapshotRun, t: Tracer): seq<Ranked<Statistic>> {
    Top(AllStatistics(run, t), run.settings.limit)
  }

  function RemainingStats(run: SnapshotRun, t: Tracer): seq<Ranked<Statistic>> {
    Remaining(AllStatistics(run, t), run.settings.limit)
  }

  function TopStatsSummary(run: SnapshotRun, t: Tracer): Option<int> {
    Summary(TopStats(run, t), StatSize)
  }

  function RemainingStatsSummary(run: SnapshotRun, t: Tracer): Option<int> {
    Summary(RemainingStats(run, t), StatSize)
  }

  /** The split law of a snapshot view: both lists are numbered from 1, they
      partition the tracer's statistics, the top list is the first
      `min(limit, n)` of them for a non-negative limit, and the two size
      summaries add up to the total size of all filtered statistics. */
  lemma SnapshotRunSplit(run: SnapshotRun, t: Tracer)
    ensures NumberedFromOne(TopStats(run, t)) && NumberedFromOne(RemainingStats(run, t))
    ensures Statistics(TopStats(run, t)) + Statistics(RemainingStats(run, t)) == AllStatistics(run, t)
    ensures run.settings.limit >= 0 ==>
      |TopStats(run, t)| == if run.settings.limit < |AllStatistics(run, t)| then run.settings.limit
                            else |AllStatistics(run, t)|
    ensures TopStatsSummary(run, t).GetOr(0) + RemainingStatsSummary(run, t).GetOr(0)
         == Total(AllStatistics(run, t), StatSize)
    ensures TopStatsSummary(run, t).GetOr(0) >= 0 && RemainingStatsSummary(run, t).GetOr(0) >= 0
  {
    var all, limit := AllStatistics(run, t), run.settings.limit;
    SplitPartitions(all, limit);
    SplitSummaries(all, limit, StatSize);
    var top, rest := Statistics(TopStats(run, t)), Statistics(RemainingStats(run, t));
    TotalNonNegative(top, StatSize);
    TotalNonNegative(rest, StatSize);
  }

  /** With `limit == 0` the top list and its summary are empty and every
      statistic is in the remaining list. */
  lemma SnapshotRunZeroLimit(run: SnapshotRun, t: Tracer)
    requires run.settings.limit == 0
    ensures TopStats(run, t) == [] && TopStatsSummary(run, t) == None
    ensures Statistics(RemainingStats(run, t)) == AllStatistics(run, t)
  {
    ZeroLimitKeepsNothingOnTop(AllStatistics(run, t));
    EnumerateRoundTrip(AllStatistics(run, t));
  }

  /** When the tracer delivers its statistics largest first, the top entries
      are non-increasing in size and none is smaller than a remaining entry. */
  lemma SnapshotRunOrder(run: SnapshotRun, t: Tracer)
    requires NonIncreasing(AllStatistics(run, t), StatSize)
    ensures NonIncreasing(Statistics(TopStats(run, t)), StatSize)
    ensures forall i, j :: 0 <= i < |TopStats(run, t)| && 0 <= j < |RemainingStats(run, t)| ==>
      TopStats(run, t)[i].statistic.size >= RemainingStats(run, t)[j].statistic.size
  {
    SplitKeepsOrder(AllStatistics(run, t), run.settings.limit, StatSize);
  }

  // ---------------------------------------------------------------------------
  // Diff views

  /** A comparison of two snapshot runs. The limit defaults to 10. */
  datatype SnapshotDiffRun = SnapshotDiffRun(iterations: (int, int), diff: seq<StatisticDiff>, limit: int := DefaultLimit)

  function DiffSize(d: StatisticDiff): int { d.sizeDiff }

  function DiffMagnitude(d: StatisticDiff): int { Abs(d.sizeDiff) }

  function DiffTopStats(d: SnapshotDiffRun): seq<Ranked<StatisticDiff>> {
    Top(d.diff, d.limit)
  }

  function DiffRemainingStats(d: SnapshotDiffRun): seq<Ranked<StatisticDiff>> {
    Remaining(d.diff, d.limit)
  }

  function DiffTopStatsSummary(d: SnapshotDiffRun): Option<int> {
    Summary(DiffTopStats(d), DiffSize)
  }

  function DiffRemainingStatsSummary(d: SnapshotDiffRun): Option<int> {
    Summary(DiffRemainingStats(d), DiffSize)
  }

  /** A diff view splits its own `diff` list at its own limit by the same law
      as a snapshot view; its summaries sum the signed size deltas. */
  lemma DiffRunSplit(d: SnapshotDiffRun)
    ensures NumberedFromOne(DiffTopStats(d)) && NumberedFromOne(DiffRemainingStats(d))
    ensures Statistics(DiffTopStats(d)) + Statistics(DiffRemainingStats(d)) == d.diff
    ensures d.limit >= 0 ==>
      |DiffTopStats(d)| == if d.limit < |d.diff| then d.limit else |d.diff|
    ensures DiffTopStatsSummary(d).None? <==> |DiffTopStats(d)| == 0
    ensures DiffTopStatsSummary(d).GetOr(0) + DiffRemainingStatsSummary(d).GetOr(0)
         == Total(d.diff, DiffSize)
  {
    SplitPartitions(d.diff, d.limit);
    SplitSummaries(d.diff, d.limit, DiffSize);
  }

  /** When the tracer ranks deltas by magnitude, the top deltas are
      non-increasing in magnitude and none is smaller than a remaining one. */
  lemma DiffRunOrder(d: SnapshotDiffRun)
    requires NonIncreasing(d.diff, DiffMagnitude)
    ensures NonIncreasing(Statistics(DiffTopStats(d)), DiffMagnitude)
    ensures forall i, j :: 0 <= i < |DiffTopStats(d)| && 0 <= j < |DiffRemainingStats(d)| ==>
      Abs(DiffTopStats(d)[i].statistic.sizeDiff) >= Abs(DiffRemainingStats(d)[j].statistic.sizeDiff)
  {
    SplitKeepsOrder(d.diff, d.limit, DiffMagnitude);
  }

  /** `ProfileRun.__compare`: the earlier run's filtered snapshot is compared
      with the later one's under the earlier run's key. No limit is passed, so
      the comparison keeps the default 10 whatever `settings.limit` is. */
  function Compare(first: SnapshotRun, second: SnapshotRun, t: Tracer): (r: SnapshotDiffRun)
    ensures r.iterations == (first.iteration, second.iteration)
    ensures r.limit == 10
    ensures r.diff == t.compareTo(FilteredSnapshot(first, t), FilteredSnapshot(second, t), first.settings.keyType.Value())
  {
    SnapshotDiffRun(
      iterations := (first.iteration, second.iteration),
      diff := t.compareTo(FilteredSnapshot(first, t), FilteredSnapshot(second, t), first.settings.keyType.Value()))
  }

  /** Every comparison shows the first `min(10, n)` deltas on top, whatever
      limit the snapshot runs were configured with. */
  lemma CompareUsesDefaultLimit(first: SnapshotRun, second: SnapshotRun, t: Tracer)
    ensures var d := Compare(first, second, t);
      |DiffTopStats(d)| == (if 10 < |d.diff| then 10 else |d.diff|) &&
      |DiffRemainingStats(d)| == |d.diff| - |DiffTopStats(d)|
  {
    var d := Compare(first, second, t);
    TopIsRankedPrefix(d.diff, d.limit);
    SplitPartitions(d.diff, d.limit);
  }
}
