/** The list bookkeeping shared by snapshot views and diff views: numbering
    statistics with `enumerate`, splitting one ranked list at the rank limit with
    Python's slice semantics, and summing sizes over a list of entries. */
module Ranking {
  import opened Records

  /** A statistic together with the position shown for it in a report
      (StatisticRun and StatisticDiffRun): the enumeration index plus one. */
  datatype Ranked<T> = Ranked(position: int, statistic: T)

  /** `[Run(i, stat) for i, stat in enumerate(s)]`, where the run constructor
      stores `i + 1` as the position. */
  function Enumerate<T>(s: seq<T>): (r: seq<Ranked<T>>)
    ensures |r| == |s|
  {
    seq(|s|, i requires 0 <= i < |s| => Ranked(i + 1, s[i]))
  }

  /** The statistics carried by a list of entries, ranks dropped. */
  function Statistics<T>(entries: seq<Ranked<T>>): (r: seq<T>)
    ensures |r| == |entries|
  {
    seq(|entries|, i requires 0 <= i < |entries| => entries[i].statistic)
  }

  /** Every entry's position is its index in its own list plus one. */
  ghost predicate NumberedFromOne<T>(entries: seq<Ranked<T>>) {
    forall i :: 0 <= i < |entries| ==> entries[i].position == i + 1
  }

  lemma EnumerateRoundTrip<T>(s: seq<T>)
    ensures NumberedFromOne(Enumerate(s))
    ensures Statistics(Enumerate(s)) == s
  {
  }

  // ---------------------------------------------------------------------------
  // Python slicing at the rank limit

  /** The index at which Python's `s[:k]` ends and `s[k:]` begins for a list of
      length `n`: a negative bound counts from the end, and any bound is clamped
      to `0..n`. */
  function SliceIndex(n: nat, k: int): (b: nat)
    ensures b <= n
  {
    if k < 0 then (if n + k < 0 then 0 else n + k)
    else if k < n then k
    else n
  }

  /** `[Run(i, stat) for i, stat in enumerate(s[:limit])]`. */
  function Top<T>(s: seq<T>, limit: int): (r: seq<Ranked<T>>)
    ensures NumberedFromOne(r)
    ensures Statistics(r) == s[..SliceIndex(|s|, limit)]
  {
    EnumerateRoundTrip(s[..SliceIndex(|s|, limit)]);
    Enumerate(s[..SliceIndex(|s|, limit)])
  }

  /** `[Run(i, stat) for i, stat in enumerate(s[limit:])]`: the enumeration runs
      over the slice, so the positions start again at 1. */
  function Remaining<T>(s: seq<T>, limit: int): (r: seq<Ranked<T>>)
    ensures NumberedFromOne(r)
    ensures Statistics(r) == s[SliceIndex(|s|, limit)..]
  {
    EnumerateRoundTrip(s[SliceIndex(|s|, limit)..]);
    Enumerate(s[SliceIndex(|s|, limit)..])
  }

  /** With a non-negative limit the top list is exactly the first
      `min(limit, |s|)` statistics, in their original order, ranked 1, 2, ... */
  lemma TopIsRankedPrefix<T>(s: seq<T>, limit: int)
    requires limit >= 0
    ensures |Top(s, limit)| == (if limit < |s| then limit else |s|)
    ensures forall i :: 0 <= i < |Top(s, limit)| ==> Top(s, limit)[i] == Ranked(i + 1, s[i])
  {
  }

  /** The remaining list holds everything after the top list, in order, and its
      ranks restart at 1 instead of continuing from the top list. */
  lemma RemainingRestartsRanks<T>(s: seq<T>, limit: int)
    requires 0 <= limit
    ensures |Remaining(s, limit)| == (if limit < |s| then |s| - limit else 0)
    ensures forall i :: 0 <= i < |Remaining(s, limit)| ==>
      Remaining(s, limit)[i] == Ranked(i + 1, s[limit + i])
    ensures limit < |s| ==> Remaining(s, limit)[0].position == 1
  {
  }

  /** The two lists partition the statistics: their concatenation, ranks
      dropped, is the whole input, whatever the limit. */
  lemma SplitPartitions<T>(s: seq<T>, limit: int)
    ensures |Top(s, limit)| + |Remaining(s, limit)| == |s|
    ensures Statistics(Top(s, limit)) + Statistics(Remaining(s, limit)) == s
  {
    var b := SliceIndex(|s|, limit);
    assert s[..b] + s[b..] == s;
  }

  /** A limit of zero leaves the top list empty and puts every statistic,
      ranked from 1, in the remaining list. */
  lemma ZeroLimitKeepsNothingOnTop<T>(s: seq<T>)
    ensures Top(s, 0) == []
    ensures Remaining(s, 0) == Enumerate(s)
  {
    assert s[0..] == s;
  }

  /** A negative limit counts from the end, as Python slicing does: the last
      `min(-limit, |s|)` statistics are "remaining". */
  lemma NegativeLimitCountsFromEnd<T>(s: seq<T>, limit: int)
    requires limit < 0
    ensures |Remaining(s, limit)| == (if -limit < |s| then -limit else |s|)
  {
  }

  // ---------------------------------------------------------------------------
  // Size totals and summaries

  /** `sum(size(x) for x in s)`. */
  function Total<T>(s: seq<T>, size: T -> int): int {
    if s == [] then 0 else size(s[0]) + Total(s[1..], size)
  }

  lemma {:induction false} TotalConcat<T>(a: seq<T>, b: seq<T>, size: T -> int)
    ensures Total(a + b, size) == Total(a, size) + Total(b, size)
  {
    if a == [] {
      assert a + b == b;
    } else {
      assert (a + b)[1..] == a[1..] + b;
      TotalConcat(a[1..], b, size);
    }
  }

  /** A total of non-negative sizes is non-negative. */
  lemma {:induction false} TotalNonNegative<T>(s: seq<T>, size: T -> int)
    requires forall x :: x in s ==> size(x) >= 0
    ensures Total(s, size) >= 0
  {
    if s != [] {
      assert forall x :: x in s[1..] ==> x in s;
      TotalNonNegative(s[1..], size);
    }
  }

  /** The size summary line of a list of entries: absent ("no data", rendered as
      the empty string) exactly when the list is empty, otherwise the total of
      the entries' sizes in bytes. */
  function Summary<T>(entries: seq<Ranked<T>>, size: T -> int): (r: Option<int>)
    ensures r.None? <==> |entries| == 0
    ensures r.Some? ==> r.value == Total(Statistics(entries), size)
  {
    if |entries| > 0 then Some(Total(Statistics(entries), size)) else None
  }

  /** The two summaries of one split: the top summary is absent exactly when
      the top list is empty, the remaining summary exactly when nothing is
      left over, and together they account for the total size of the input. */
  lemma SplitSummaries<T>(s: seq<T>, limit: int, size: T -> int)
    ensures Summary(Top(s, limit), size).None? <==> SliceIndex(|s|, limit) == 0
    ensures Summary(Remaining(s, limit), size).None? <==> SliceIndex(|s|, limit) == |s|
    ensures Summary(Top(s, limit), size).GetOr(0) + Summary(Remaining(s, limit), size).GetOr(0)
         == Total(s, size)
  {
    var b := SliceIndex(|s|, limit);
    SplitPartitions(s, limit);
    TotalConcat(s[..b], s[b..], size);
    assert s[..b] + s[b..] == s;
  }

  // ---------------------------------------------------------------------------
  // Order

  /** The tracer's promise about its output: non-increasing in `key`. */
  ghost predicate NonIncreasing<T>(s: seq<T>, key: T -> int) {
    forall i :: 0 < i < |s| ==> key(s[i - 1]) >= key(s[i])
  }

  lemma {:induction false} NonIncreasingPairwise<T>(s: seq<T>, key: T -> int, i: nat, j: nat)
    requires NonIncreasing(s, key)
    requires i <= j < |s|
    ensures key(s[i]) >= key(s[j])
    decreases j - i
  {
    if i < j {
      NonIncreasingPairwise(s, key, i + 1, j);
      assert key(s[i]) >= key(s[i + 1]);
    }
  }

  /** Splitting a non-increasing list keeps both parts non-increasing, and no
      remaining statistic outranks a top statistic. */
  lemma SplitKeepsOrder<T>(s: seq<T>, limit: int, key: T -> int)
    requires NonIncreasing(s, key)
    ensures NonIncreasing(Statistics(Top(s, limit)), key)
    ensures NonIncreasing(Statistics(Remaining(s, limit)), key)
    ensures forall i, j :: 0 <= i < |Top(s, limit)| && 0 <= j < |Remaining(s, limit)| ==>
      key(Top(s, limit)[i].statistic) >= key(Remaining(s, limit)[j].statistic)
  {
    var b := SliceIndex(|s|, limit);
    var top, rest := Top(s, limit), Remaining(s, limit);
    forall i, j | 0 <= i < |top| && 0 <= j < |rest|
      ensures key(top[i].statistic) >= key(rest[j].statistic)
    {
      assert top[i].statistic == Statistics(top)[i] == s[i];
      assert rest[j].statistic == Statistics(rest)[j] == s[b + j];
      NonIncreasingPairwise(s, key, i, b + j);
    }
  }
}
