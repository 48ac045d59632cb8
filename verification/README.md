# chaos-profiler: the snapshot bookkeeping, modelled in Dafny

chaos-profiler profiles the heap allocations of a target function. It calls the
function a number of times under Python's `tracemalloc`, takes a snapshot
before the first call and after each call, and writes a markdown report. For
every snapshot the report shows the largest allocating locations. For every
consecutive pair of snapshots it shows the largest changes.

This project models the list bookkeeping that `src/profile_operators.py`
layers on top of the tracer:

- the choice of filter rules: an allow-list in exclusive mode, a fixed deny-list
  otherwise;
- the split of the tracer's ranked statistics at the rank limit into a "top"
  list and a "remaining" list, each numbered from 1;
- the size summaries, which are absent for an empty list and otherwise give the
  total size;
- the pairing of consecutive snapshot runs into comparisons;
- the run loop of `profile_func`;
- the structure of the rendered report.

The tracer is opaque. A snapshot is a symbolic value. A capture is identified by
its capture index and by the number of target invocations that preceded it.
Filtering a snapshot yields a snapshot that records its source and the rules
applied. What the tracer computes from snapshots is given as two functions
carried by a `Tracer` value: `statistics` (the grouped statistics of a snapshot
under a key) and `compareTo` (the deltas between two snapshots). A statistic is
reduced to its size (or signed size delta) in bytes, the file name and line
number of its first frame, and its traceback's total frame count.

Modules (one file each):

- `Records` (`records.dfy`): `Option`, `Statistic`, `StatisticDiff`.
- `Ranking` (`ranking.dfy`): numbering with `enumerate`, splitting with Python
  slice semantics, size totals and summaries, and order preservation. Snapshot
  views and diff views share all of it.
- `Settings` (`settings.dfy`): `TraceKeyType` and `ProfileRunSettings` with
  the defaults of the dataclass.
- `Snapshots` (`snapshots.dfy`): filter rules, `SnapshotRun`,
  `SnapshotDiffRun` and `__compare`.
- `Profile` (`profile.dfy`): the process state the run drives (a `Process`
  class with the tracer's `start`, `stop` and `take_snapshot` and the target
  invocation), `ProfileFunc` and the `Comparisons` loop.
- `Render` (`render.dfy`): the report as a document tree (banner, titled
  sections, entries, summaries, headings), together with `str.strip`.

## Where the code departs from its documented intent (the model follows the code)

- Ranks in the remaining list restart at 1, because `enumerate` runs over the
  slice. The ranks of a view therefore do not form one run `1..n` across its
  two lists (`Ranking.RemainingRestartsRanks`).
- `__compare` passes no limit, so every comparison uses the default limit of
  10 whatever `settings.limit` is (`Snapshots.Compare`,
  `Snapshots.CompareUsesDefaultLimit`).
- The report lists the snapshot sections twice. It also carries the
  "Profile Comparisons" heading twice, the first one directly before the
  repeated snapshot sections (`Render.ReportLayout`, `Render.ReportCounts`).
  With a single snapshot run there is no comparison section, but both headings
  are still there (`Render.SingleRunHasNoComparisons`).
- `line_trace` is never `None`, because `str.strip()` always returns a string.
  Every entry therefore renders its source-line sub-line, even when the line
  lookup found nothing and the sub-line is empty (`Render.LineTrace`).
- `run_count` and `limit` are not validated. A negative `run_count` gives one
  snapshot run. A negative `limit` slices from the end, as Python does. Both
  are modelled as they behave.
- The earlier snapshot is the receiver of `compare_to` and the later one is the
  argument (src/profile_operators.py:232-234). `tracemalloc`'s
  `Snapshot.compare_to(old_snapshot, key_type)` reports the receiver minus the
  argument, so each delta is the earlier size minus the later size. Memory that
  grows between two runs therefore shows up as a negative delta, the opposite
  of "a positive delta means growth". The model keeps this argument order
  (`Snapshots.Compare`); `compareTo` stays a given function, so the model does
  not itself derive the sign.

## Model

| member | source | states |
|---|---|---|
| `Ranking.EnumerateRoundTrip` | src/profile_operators.py:25-28 | each run's position is its enumeration index plus one, and dropping the positions gives back the enumerated list |
| `Ranking.Top` | src/profile_operators.py:128-137 | the top entries are numbered 1..len and carry exactly the statistics of the Python slice `s[:limit]` |
| `Ranking.Remaining` | src/profile_operators.py:143-152 | the remaining entries are numbered 1..len again and carry exactly the statistics of `s[limit:]` |
| `Ranking.TopIsRankedPrefix` | src/profile_operators.py:128-137 | for a limit >= 0, the top list has `min(limit, n)` entries, and entry `i` is statistic `i` with position `i + 1` |
| `Ranking.RemainingRestartsRanks` | src/profile_operators.py:143-152 | for a limit >= 0, the remaining list has `max(n - limit, 0)` entries, and entry `i` is statistic `limit + i` with position `i + 1`, so the first remaining rank is 1 |
| `Ranking.SplitPartitions` | src/profile_operators.py:128-152 | for any limit, the two lists' lengths add up to `n`, and their statistics concatenated are the input |
| `Ranking.ZeroLimitKeepsNothingOnTop` | src/profile_operators.py:128-152 | with limit 0 the top list is empty and the remaining list is the whole input numbered from 1 |
| `Ranking.NegativeLimitCountsFromEnd` | src/profile_operators.py:147-149 | a negative limit leaves the last `min(-limit, n)` statistics in the remaining list |
| `Ranking.Summary` | src/profile_operators.py:158-163 | the summary is absent exactly when the entry list is empty; otherwise it is the sum of the entries' sizes |
| `Ranking.SplitSummaries` | src/profile_operators.py:139-163 | the top summary is absent iff nothing is on top, the remaining summary is absent iff nothing remains, and the two totals add up to the total of the input |
| `Ranking.SplitKeepsOrder` | src/profile_operators.py:128-152 | if the tracer's list is non-increasing in a key, both lists stay non-increasing and every top entry's key is at least every remaining entry's key |
| `Settings.DefaultsApplied` | src/profile_operators.py:15-22 | settings given only the function and file names run 3 times, group by line, use limit 10 and exclusive filtering |
| `Snapshots.InclusiveFilters` | src/profile_operators.py:101-109 | inclusive mode uses only exclude rules, for exactly the tracer's module file, `<frozen importlib._bootstrap>` and `<unknown>`, in that order |
| `Snapshots.ExclusiveFilters` | src/profile_operators.py:111-118 | exclusive mode uses only include rules, one per target file name, and their patterns read back are the names in order |
| `Snapshots.SelectedFilters` | src/profile_operators.py:120-126 | `exclusive_filter` selects the allow-list of the target files, otherwise the three-rule deny-list |
| `Snapshots.FilteredSnapshot` | src/profile_operators.py:120-126 | the filtered snapshot is derived from the captured snapshot, which is its unchanged source, with the selected rules |
| `Snapshots.SnapshotRunSplit` | src/profile_operators.py:128-163 | a snapshot view's two lists are numbered from 1 and partition the filtered statistics, and the top list is the first `min(limit, n)`; the two non-negative summary totals add up to the total size |
| `Snapshots.SnapshotRunZeroLimit` | src/profile_operators.py:128-163 | with `limit == 0`, `top_stats` and its summary are empty and `remaining_stats` holds every statistic |
| `Snapshots.SnapshotRunOrder` | src/profile_operators.py:128-152 | with the tracer's largest-first order, the top entries are non-increasing in size and none is smaller than a remaining entry |
| `Snapshots.DiffRunSplit` | src/profile_operators.py:190-215 | a diff view splits its own `diff` at its own limit by the same law, and the summaries of signed deltas add up to the total delta |
| `Snapshots.DiffRunOrder` | src/profile_operators.py:190-204 | with the tracer's order by magnitude, the top deltas are non-increasing in magnitude and none is smaller than a remaining delta |
| `Snapshots.Compare` | src/profile_operators.py:229-235 | a comparison carries the pair of iterations (earlier, later), the tracer's deltas between the two filtered snapshots under the earlier run's key, and limit 10 |
| `Snapshots.CompareUsesDefaultLimit` | src/profile_operators.py:166-175 | every comparison shows `min(10, n)` deltas on top whatever the configured limit, and the rest as remaining |
| `Profile.Process.TakeSnapshot` | src/profile_operators.py:272-277 | a capture is possible only while tracing; it records its capture index and the invocations made so far |
| `Profile.Process.InvokeTarget` | src/profile_operators.py:276 | one invocation of the target adds one to the call count and changes nothing else |
| `Profile.Process.Start` | src/profile_operators.py:271 | starting the tracer turns tracing on and leaves the counts alone |
| `Profile.Process.Stop` | src/profile_operators.py:279 | stopping the tracer turns tracing off and leaves the counts alone |
| `Profile.Iterations` | src/profile_operators.py:275 | `range(1, run_count + 1)` runs `run_count` times for `run_count >= 0` and never for `run_count <= 0` |
| `Profile.ProfileFunc` | src/profile_operators.py:270-280 | returns `run_count + 1` snapshot runs (one if `run_count <= 0`) numbered 0, 1, ... with the given settings; snapshot `i` follows exactly `i` invocations of the target; the target is invoked `run_count` times; tracing is off afterwards |
| `Profile.ComparisonsOf` | src/profile_operators.py:237-245 | `k` snapshot runs give `k - 1` comparisons (none for none) |
| `Profile.ComparisonsOfPairs` | src/profile_operators.py:237-245 | comparison `j` compares run `j` with run `j + 1`, in that order |
| `Profile.Comparisons` | src/profile_operators.py:237-245 | the loop returns `k - 1` comparisons, entry `j` being `__compare(runs[j], runs[j + 1])` |
| `Profile.ComparisonIterations` | src/profile_operators.py:229-245 | for runs numbered from 0, comparison `j` carries iterations `(j, j + 1)` and limit 10 |
| `Render.LeadingSpace` | src/profile_operators.py:45 | counts the whitespace run at the front of a string: every counted character is whitespace and the next one is not |
| `Render.TrailingSpace` | src/profile_operators.py:45 | counts the whitespace run at the back of a string: every counted character is whitespace and the one before them is not |
| `Render.Strip` | src/profile_operators.py:45 | `strip()` yields the infix starting right after the leading whitespace, which neither starts nor ends with whitespace, everything cut off on either side being whitespace |
| `Render.LineTrace` | src/profile_operators.py:42-46 | the source-line sub-line is always present (never `None`) and holds the stripped looked-up line |
| `Render.StatisticEntry` | src/profile_operators.py:30-46 | an entry shows its rank, the statistic's size, the file, line and frame count of its first frame, and the stripped source of that line |
| `Render.DiffEntry` | src/profile_operators.py:54-70 | a delta entry shows its rank, the signed size delta, the file, line and frame count of its first frame, and the stripped source of that line |
| `Render.StatisticEntries` | src/profile_operators.py:94 | the rendered list has one entry per ranked statistic, in order, entry `i` rendering statistic `i` |
| `Render.DiffEntries` | src/profile_operators.py:183 | the rendered list has one entry per ranked delta, in order, entry `i` rendering delta `i` |
| `Render.SnapshotTitle` | src/profile_operators.py:85-89 | the title is "Snapshot Before Run" exactly for iteration 0 and "Snapshot Run #N" otherwise |
| `Render.SnapshotSection` | src/profile_operators.py:84-99 | a snapshot section is titled "Before Run" exactly for iteration 0 and "Run #N" otherwise, carries the configured limit, one entry per top statistic (position `i + 1`, its size, file, line, frame count and stripped source line), and the two summaries |
| `Render.DiffSection` | src/profile_operators.py:177-188 | a comparison section is titled with its iteration pair, carries its own limit, one entry per top delta (position `i + 1`, its signed delta, file, line, frame count and stripped source line), and the two summaries |
| `Render.SettingsBanner` | src/profile_operators.py:252-260 | the banner carries limit, key name and filter mode; the file-filter line lists the target files exactly in exclusive mode and is empty otherwise |
| `Render.RenderProfileRun` | src/profile_operators.py:247-267 | a report exists exactly when there is a snapshot run (the banner reads the first run's settings) |
| `Render.ComparisonSectionTitles` | src/profile_operators.py:178-182 | comparison section `j` is titled with the iterations of runs `j` and `j + 1` and shows limit 10 |
| `Render.ReportLayout` | src/profile_operators.py:247-267 | the body is the `k` snapshot sections, a comparisons heading, the same `k` sections again, a second heading, then the `k - 1` comparison sections |
| `Render.ReportCounts` | src/profile_operators.py:261-265 | a report of `k` snapshot runs carries the comparisons heading twice and exactly `k - 1` comparison sections |
| `Render.SingleRunHasNoComparisons` | src/profile_operators.py:261-265 | a single snapshot run (`run_count <= 0`) yields no comparison section, while both headings remain |

## Left out

- The tracer (`tracemalloc`) is foreign code with process-wide state. Its
  grouping, sorting, `filter_traces` matching and `compare_to` arithmetic are
  not modelled. `statistics` and `compareTo` are given functions, and the
  largest-first order is a precondition of the order lemmas. So the model does
  not prove that a surviving entry matches an allow-listed file. It proves only
  which rules are handed to the tracer.
- `Profile.Process.Start`: Python's `tracemalloc.start()` while already tracing
  is not treated as an error (nothing can observe it here). `Stop` keeps no
  trace of discarded traces.
- `linecache.getline` does file I/O behind a cache. It is a given function from
  (file name, line number) to text.
- The KiB values (`/ 1024` float division) and the f-string formatting are not
  modelled. Totals are integer bytes, and the absent summary stands for the
  empty string.
- The exact characters of every `__str__` (tabs, newlines, markdown marks,
  `\n`-joins of empty lists) are not modelled. The report is a document tree of
  banner, sections, entries and headings in the order the code joins them.
- `Render.Strip`: Python's `str.isspace` covers all Unicode whitespace. The
  model recognises it only up to U+00A0 (tab to carriage return, U+001C to
  space, U+0085, U+00A0).
- The target function is represented only by its printed name
  (`str(settings.func)`) and by the call counter of `Process`. Its exceptions
  (which leave tracing on) are not modelled.
- `profile.py` (the entry point that prints the report) and `test/run.py` (the
  sample workload) are not part of this model.
