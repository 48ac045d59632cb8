/** The report that the `__str__` methods assemble, as a document tree rather
    than text: a settings banner, titled sections of ranked entries with their
    size summaries, and the comparison headings, in the order the code joins
    them. The characters of the output (KiB formatting, tabs, markdown marks)
    are not modelled. */
module Render {
  import opened Records
  import opened Settings
  import opened Ranking
  import opened Snapshots
  import opened Profile

  // ---------------------------------------------------------------------------
  // Python's str.strip()

  /** Python's `str.isspace` on one character, for the characters up to U+00A0. */
  predicate IsSpace(c: char) {
    ('\t' <= c <= '\r') || ('\U{1C}' <= c <= ' ') || c == '\U{85}' || c == '\U{A0}'
  }

  /** How many whitespace characters `s` starts with: all of them are
      whitespace, and the next one, if any, is not. */
  function LeadingSpace(s: string): (n: nat)
    ensures n <= |s|
    ensures forall k :: 0 <= k < n ==> IsSpace(s[k])
    ensures n < |s| ==> !IsSpace(s[n])
  {
    if s == [] || !IsSpace(s[0]) then 0
    else
      var n := LeadingSpace(s[1..]);
      assert forall k :: 1 <= k < n + 1 ==> s[k] == s[1..][k - 1];
      n + 1
  }

  /** How many whitespace characters `s` ends with: all of them are
      whitespace, and the one before them, if any, is not. */
  function TrailingSpace(s: string): (n: nat)
    ensures n <= |s|
    ensures forall k :: |s| - n <= k < |s| ==> IsSpace(s[k])
    ensures n < |s| ==> !IsSpace(s[|s| - 1 - n])
  {
    if s == [] || !IsSpace(s[|s| - 1]) then 0
    else
      var n := TrailingSpace(s[..|s| - 1]);
      assert forall k :: |s| - 1 - n <= k < |s| - 1 ==> s[k] == s[..|s| - 1][k];
      n + 1
  }

  /** `s.strip()`: the infix of `s` that starts after its leading whitespace
      and neither starts nor ends with whitespace, everything cut off on
      either side being whitespace. It is always a string, never `None`. */
  function Strip(s: string): (r: string)
    ensures r != [] ==> !IsSpace(r[0]) && !IsSpace(r[|r| - 1])
    ensures LeadingSpace(s) + |r| <= |s|
    ensures r == s[LeadingSpace(s)..LeadingSpace(s) + |r|]
    ensures forall k :: 0 <= k < LeadingSpace(s) ==> IsSpace(s[k])
    ensures forall k :: LeadingSpace(s) + |r| <= k < |s| ==> IsSpace(s[k])
  {
    var i := LeadingSpace(s);
    if i == |s| then []
    else
      var j := |s| - TrailingSpace(s);
      assert !IsSpace(s[i]) && i < j;
      s[i..j]
  }

  // ---------------------------------------------------------------------------
  // Entries

  /** One rendered entry: the fields of its `file_trace` line and its
      `line_trace` sub-line (the stripped source text of the first frame). */
  datatype EntryDoc = EntryDoc(
    position: int, amount: int, filename: string, lineno: int, totalNframe: nat,
    lineTrace: Option<string>)

  /** `line_trace`: the source line looked up through `getline` (the line
      cache, an outside collaborator) and stripped. Because the stripped text
      is never `None`, the sub-line is always present, even when the lookup
      found nothing and the text is empty. */
  function LineTrace(filename: string, lineno: int, getline: (string, int) -> string): (r: Option<string>)
    ensures r.Some?
    ensures r.value == Strip(getline(filename, lineno))
  {
    Some(Strip(getline(filename, lineno)))
  }

  /** `StatisticRun.__str__`: the `file_trace` line shows the entry's rank,
      its size and the file, line and frame count of its first frame; the
      `line_trace` sub-line shows the stripped source of that line. */
  function StatisticEntry(e: Ranked<Statistic>, getline: (string, int) -> string): (r: EntryDoc)
    ensures r.position == e.position && r.amount == e.statistic.size
    ensures r.filename == e.statistic.filename && r.lineno == e.statistic.lineno
    ensures r.totalNframe == e.statistic.totalNframe
    ensures r.lineTrace == LineTrace(e.statistic.filename, e.statistic.lineno, getline)
  {
    var s := e.statistic;
    EntryDoc(e.position, s.size, s.filename, s.lineno, s.totalNframe, LineTrace(s.filename, s.lineno, getline))
  }

  /** `StatisticDiffRun.__str__`: as `StatisticEntry`, showing the signed
      size delta instead of the size. */
  function DiffEntry(e: Ranked<StatisticDiff>, getline: (string, int) -> string): (r: EntryDoc)
    ensures r.position == e.position && r.amount == e.statistic.sizeDiff
    ensures r.filename == e.statistic.filename && r.lineno == e.statistic.lineno
    ensures r.totalNframe == e.statistic.totalNframe
    ensures r.lineTrace == LineTrace(e.statistic.filename, e.statistic.lineno, getline)
  {
    var d := e.statistic;
    EntryDoc(e.position, d.sizeDiff, d.filename, d.lineno, d.totalNframe, LineTrace(d.filename, d.lineno, getline))
  }

  /** `[str(stat) for stat in top_stats]`: the rendered lines of a list of
      ranked statistics, in order. */
  function StatisticEntries(top: seq<Ranked<Statistic>>, getline: (string, int) -> string): (r: seq<EntryDoc>)
    ensures |r| == |top|
    ensures forall i :: 0 <= i < |r| ==> r[i] == StatisticEntry(top[i], getline)
  {
    seq(|top|, i requires 0 <= i < |top| => StatisticEntry(top[i], getline))
  }

  /** `[str(stat) for stat in top_stats]` of a diff view: the rendered lines
      of a list of ranked deltas, in order. */
  function DiffEntries(top: seq<Ranked<StatisticDiff>>, getline: (string, int) -> string): (r: seq<EntryDoc>)
    ensures |r| == |top|
    ensures forall i :: 0 <= i < |r| ==> r[i] == DiffEntry(top[i], getline)
  {
    seq(|top|, i requires 0 <= i < |top| => DiffEntry(top[i], getline))
  }

  // ---------------------------------------------------------------------------
  // Sections

  datatype Title = BeforeRun | RunNumber(iteration: int) | ComparisonBetween(first: int, second: int)

  /** "Snapshot Before Run" exactly for iteration 0, otherwise "Snapshot Run #N". */
  function SnapshotTitle(iteration: int): (r: Title)
    ensures r == BeforeRun <==> iteration == 0
    ensures r != BeforeRun ==> r == RunNumber(iteration)
  {
    if iteration != 0 then RunNumber(iteration) else BeforeRun
  }

  /** A titled block: the "Top N Memory Hogs" header with its `limit`, the top
      entries, and the summary with the top and remaining totals. */
  datatype SectionDoc = SectionDoc(
    title: Title, limit: int, entries: seq<EntryDoc>,
    topTotal: Option<int>, remainingTotal: Option<int>)

  /** `SnapshotRun.__str__`. */
  function SnapshotSection(run: SnapshotRun, t: Tracer, getline: (string, int) -> string): (r: SectionDoc)
    ensures r.title == BeforeRun <==> run.iteration == 0
    ensures run.iteration != 0 ==> r.title == RunNumber(run.iteration)
    ensures !r.title.ComparisonBetween?
    ensures r.limit == run.settings.limit
    ensures |r.entries| == |TopStats(run, t)|
    ensures forall i :: 0 <= i < |r.entries| ==>
      var stat := TopStats(run, t)[i].statistic;
      && r.entries[i].position == i + 1
      && r.entries[i].amount == stat.size
      && r.entries[i].filename == stat.filename
      && r.entries[i].lineno == stat.lineno
      && r.entries[i].totalNframe == stat.totalNframe
      && r.entries[i].lineTrace == LineTrace(stat.filename, stat.lineno, getline)
    ensures r.topTotal == TopStatsSummary(run, t) && r.remainingTotal == RemainingStatsSummary(run, t)
  {
    var top := TopStats(run, t);
    assert NumberedFromOne(top);
    SectionDoc(SnapshotTitle(run.iteration), run.settings.limit, StatisticEntries(top, getline),
      TopStatsSummary(run, t), RemainingStatsSummary(run, t))
  }

  /** `SnapshotDiffRun.__str__`: titled with the pair of iterations compared. */
  function DiffSection(d: SnapshotDiffRun, getline: (string, int) -> string): (r: SectionDoc)
    ensures r.title == ComparisonBetween(d.iterations.0, d.iterations.1)
    ensures r.limit == d.limit
    ensures |r.entries| == |DiffTopStats(d)|
    ensures forall i :: 0 <= i < |r.entries| ==>
      var delta := DiffTopStats(d)[i].statistic;
      && r.entries[i].position == i + 1
      && r.entries[i].amount == delta.sizeDiff
      && r.entries[i].filename == delta.filename
      && r.entries[i].lineno == delta.lineno
      && r.entries[i].totalNframe == delta.totalNframe
      && r.entries[i].lineTrace == LineTrace(delta.filename, delta.lineno, getline)
    ensures r.topTotal == DiffTopStatsSummary(d) && r.remainingTotal == DiffRemainingStatsSummary(d)
  {
    var top := DiffTopStats(d);
    assert NumberedFromOne(top);
    SectionDoc(ComparisonBetween(d.iterations.0, d.iterations.1), d.limit, DiffEntries(top, getline),
      DiffTopStatsSummary(d), DiffRemainingStatsSummary(d))
  }

  // ---------------------------------------------------------------------------
  // The whole report

  /** The settings banner. The file-filter line carries the allow-list in
      exclusive mode and is an empty line otherwise. */
  datatype Banner = Banner(limit: int, keyName: string, exclusive: bool, fileFilters: Option<seq<string>>)

  function SettingsBanner(settings: ProfileRunSettings): (r: Banner)
    ensures r.fileFilters.Some? <==> settings.exclusiveFilter
    ensures r.fileFilters.Some? ==> r.fileFilters.value == settings.funcFileNames
    ensures r.limit == settings.limit && r.keyName == settings.keyType.Name() && r.exclusive == settings.exclusiveFilter
  {
    Banner(settings.limit, settings.keyType.Name(), settings.exclusiveFilter,
      if settings.exclusiveFilter then Some(settings.funcFileNames) else None)
  }

  datatype Part = Section(section: SectionDoc) | ComparisonsHeading(funcName: string)

  /** The report: the "Profile Run For" heading, the banner, then the body. */
  datatype ReportDoc = ReportDoc(funcName: string, banner: Banner, body: seq<Part>)

  function Sections(ss: seq<SectionDoc>): (r: seq<Part>)
    ensures |r| == |ss|
  {
    seq(|ss|, i requires 0 <= i < |ss| => Section(ss[i]))
  }

  function SnapshotSections(runs: seq<SnapshotRun>, t: Tracer, getline: (string, int) -> string): (r: seq<SectionDoc>)
    ensures |r| == |runs|
  {
    seq(|runs|, i requires 0 <= i < |runs| => SnapshotSection(runs[i], t, getline))
  }

  function ComparisonSections(runs: seq<SnapshotRun>, t: Tracer, getline: (string, int) -> string): (r: seq<SectionDoc>)
    ensures |r| == |ComparisonsOf(runs, t)|
  {
    var cs := ComparisonsOf(runs, t);
    seq(|cs|, i requires 0 <= i < |cs| => DiffSection(cs[i], getline))
  }

  /** `ProfileRun.__str__`. The banner comes from the first snapshot run's
      settings, so an empty profile has no report (the code raises an index
      error). The body lists the snapshot sections, a comparisons heading, the
      snapshot sections again, a second comparisons heading and then the
      comparison sections. */
  function RenderProfileRun(run: ProfileRun, t: Tracer, getline: (string, int) -> string): (r: Option<ReportDoc>)
    ensures r.None? <==> run.snapshotRuns == []
    ensures r.Some? ==> r.value.funcName == run.funcName && r.value.banner == SettingsBanner(run.snapshotRuns[0].settings)
  {
    if run.snapshotRuns == [] then None
    else
      var snapshots := Sections(SnapshotSections(run.snapshotRuns, t, getline));
      var heading := ComparisonsHeading(run.funcName);
      Some(ReportDoc(run.funcName, SettingsBanner(run.snapshotRuns[0].settings),
        snapshots + [heading] + snapshots + [heading] + Sections(ComparisonSections(run.snapshotRuns, t, getline))))
  }

  // ---------------------------------------------------------------------------
  // What the report contains

  function CountHeadings(parts: seq<Part>): nat {
    if parts == [] then 0
    else CountHeadings(parts[1..]) + (if parts[0].ComparisonsHeading? then 1 else 0)
  }

  function CountComparisonSections(parts: seq<Part>): nat {
    if parts == [] then 0
    else
      var here := if parts[0].Section? && parts[0].section.title.ComparisonBetween? then 1 else 0;
      CountComparisonSections(parts[1..]) + here
  }

  lemma {:induction false} CountsConcat(a: seq<Part>, b: seq<Part>)
    ensures CountHeadings(a + b) == CountHeadings(a) + CountHeadings(b)
    ensures CountComparisonSections(a + b) == CountComparisonSections(a) + CountComparisonSections(b)
  {
    if a == [] {
      assert a + b == b;
    } else {
      assert (a + b)[1..] == a[1..] + b;
      CountsConcat(a[1..], b);
    }
  }

  /** Sections hold no headings; they count as comparisons exactly when
      titled as one. */
  lemma {:induction false} CountsInSections(ss: seq<SectionDoc>, comparisons: bool)
    requires forall i :: 0 <= i < |ss| ==> ss[i].title.ComparisonBetween? == comparisons
    ensures CountHeadings(Sections(ss)) == 0
    ensures CountComparisonSections(Sections(ss)) == if comparisons then |ss| else 0
  {
    if ss != [] {
      assert Sections(ss)[1..] == Sections(ss[1..]);
      CountsInSections(ss[1..], comparisons);
    }
  }

  /** The `j`-th comparison section compares runs `j` and `j + 1`, in that
      order, and shows the default 10 entries at most. */
  lemma ComparisonSectionTitles(runs: seq<SnapshotRun>, t: Tracer, getline: (string, int) -> string, j: nat)
    requires j + 1 < |runs|
    ensures ComparisonSections(runs, t, getline)[j].title ==
      ComparisonBetween(runs[j].iteration, runs[j + 1].iteration)
    ensures ComparisonSections(runs, t, getline)[j].limit == DefaultLimit
  {
    ComparisonsOfPairs(runs, t, j);
  }

  /** The body of a rendered profile of `k` snapshot runs, laid out: the `k`
      snapshot sections, a comparisons heading, the same `k` snapshot sections
      again, a second comparisons heading, and the `k - 1` comparison
      sections last. */
  lemma ReportLayout(run: ProfileRun, t: Tracer, getline: (string, int) -> string)
    requires run.snapshotRuns != []
    ensures var body := RenderProfileRun(run, t, getline).value.body;
      var k := |run.snapshotRuns|;
      && |body| == 3 * k + 1
      && body[..k] == body[k + 1..2 * k + 1] == Sections(SnapshotSections(run.snapshotRuns, t, getline))
      && body[k] == body[2 * k + 1] == ComparisonsHeading(run.funcName)
      && body[2 * k + 2..] == Sections(ComparisonSections(run.snapshotRuns, t, getline))
  {
    var snaps := Sections(SnapshotSections(run.snapshotRuns, t, getline));
    var comps := Sections(ComparisonSections(run.snapshotRuns, t, getline));
    var heading := ComparisonsHeading(run.funcName);
    assert RenderProfileRun(run, t, getline).value.body == snaps + [heading] + snaps + [heading] + comps;
    RepeatedLayout(snaps, heading, comps);
  }

  lemma RepeatedLayout(a: seq<Part>, h: Part, c: seq<Part>)
    ensures var body := a + [h] + a + [h] + c;
      var k := |a|;
      && |body| == 2 * k + 2 + |c|
      && body[..k] == body[k + 1..2 * k + 1] == a
      && body[k] == body[2 * k + 1] == h
      && body[2 * k + 2..] == c
  {
    var body := a + [h] + a + [h] + c;
    var k := |a|;
    assert body[..k] == a;
    assert body[k + 1..2 * k + 1] == a;
    assert body[2 * k + 2..] == c;
  }

  /** A rendered profile of `k` snapshot runs carries the comparisons heading
      twice and exactly `k - 1` comparison sections. */
  lemma ReportCounts(run: ProfileRun, t: Tracer, getline: (string, int) -> string)
    requires run.snapshotRuns != []
    ensures CountHeadings(RenderProfileRun(run, t, getline).value.body) == 2
    ensures CountComparisonSections(RenderProfileRun(run, t, getline).value.body) == |run.snapshotRuns| - 1
  {
    var snapDocs := SnapshotSections(run.snapshotRuns, t, getline);
    var compDocs := ComparisonSections(run.snapshotRuns, t, getline);
    var snaps, comps := Sections(snapDocs), Sections(compDocs);
    var heading := ComparisonsHeading(run.funcName);
    assert RenderProfileRun(run, t, getline).value.body == snaps + [heading] + snaps + [heading] + comps;
    CountsInSections(snapDocs, false);
    CountsInSections(compDocs, true);
    RepeatedCounts(snaps, heading, comps);
  }

  lemma RepeatedCounts(a: seq<Part>, h: Part, c: seq<Part>)
    requires CountHeadings(a) == 0 && CountComparisonSections(a) == 0
    requires h.ComparisonsHeading?
    ensures CountHeadings(a + [h] + a + [h] + c) == 2 + CountHeadings(c)
    ensures CountComparisonSections(a + [h] + a + [h] + c) == CountComparisonSections(c)
  {
    assert [h][1..] == [];
    assert CountHeadings([h]) == 1 && CountComparisonSections([h]) == 0;
    CountsConcat(a, [h]);
    CountsConcat(a + [h], a);
    CountsConcat(a + [h] + a, [h]);
    CountsConcat(a + [h] + a + [h], c);
  }

  /** A profile of a single snapshot run (`runCount <= 0`) renders no
      comparison section, although both comparison headings are present. */
  lemma SingleRunHasNoComparisons(run: ProfileRun, t: Tracer, getline: (string, int) -> string)
    requires |run.snapshotRuns| == 1
    ensures CountComparisonSections(RenderProfileRun(run, t, getline).value.body) == 0
    ensures CountHeadings(RenderProfileRun(run, t, getline).value.body) == 2
  {
    ReportCounts(run, t, getline);
  }
}
