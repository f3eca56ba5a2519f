/** Streak figures of the analytics engine: the current streak, the longest run
    of consecutive days and the number of missed days, over the days that have
    entries. */
module Streaks {
  import Seqs
  import opened Journal

  predicate StrictlyDescending(s: seq<int>) {
    forall i, j :: 0 <= i < j < |s| ==> s[i] > s[j]
  }

  function Negate(x: int): int { -x }

  /** `dates.OrderByDescending(d => d).Distinct()`: every day once, latest first. */
  function DistinctDescending(dates: seq<Day>): (sd: seq<Day>)
    ensures StrictlyDescending(sd)
    ensures forall x :: x in sd <==> x in dates
  {
    var sorted := Seqs.SortBy(dates, Negate);
    assert forall x :: x in sorted <==> x in multiset(dates);
    DedupOfDescending(sorted);
    Seqs.Dedup(sorted)
  }

  lemma {:induction false} DedupOfDescending(s: seq<int>)
    requires Seqs.SortedBy(s, Negate)
    ensures StrictlyDescending(Seqs.Dedup(s))
  {
    if |s| > 0 {
      var init, y := s[..|s| - 1], s[|s| - 1];
      assert s == init + [y];
      assert Seqs.SortedBy(init, Negate);
      DedupOfDescending(init);
      Seqs.DedupAppend(init, y);
      if y !in init {
        AtLeastLast(init, y);
        DescendingAppend(Seqs.Dedup(init), y);
      }
    }
  }

  /** In a list sorted from latest to earliest, every day before the last
      that differs from it lies after it. */
  lemma AtLeastLast(init: seq<int>, y: int)
    requires Seqs.SortedBy(init + [y], Negate)
    ensures forall x :: x in init && x != y ==> x > y
  {
    var s := init + [y];
    forall k | 0 <= k < |init| ensures init[k] >= y {
      assert Negate(s[k]) <= Negate(s[|init|]);
    }
  }

  lemma DescendingAppend(d: seq<int>, y: int)
    requires StrictlyDescending(d) && forall x :: x in d ==> x > y
    ensures StrictlyDescending(d + [y])
  {
    forall i, j | 0 <= i < j < |d| + 1 ensures (d + [y])[i] > (d + [y])[j] {
      if j == |d| {
        assert d[i] in d;
      }
    }
  }

  /** Strictly descending days are at least as far apart as their positions. */
  lemma {:induction false} DescendingGap(s: seq<int>, i: int, j: int)
    requires StrictlyDescending(s) && 0 <= i <= j < |s|
    ensures s[i] - s[j] >= j - i
    decreases j - i
  {
    if i < j {
      DescendingGap(s, i + 1, j);
    }
  }

  /** Each of the `n` days ending at `d` (`d`, `d - 1`, ..., `d - n + 1`) has an
      entry and the day before them has none. */
  predicate IsRunEndingAt(ds: seq<Day>, d: Day, n: nat) {
    (forall k :: d - n < k <= d ==> k in ds) && d - n !in ds
  }

  /** The number of consecutive days with an entry that end at day `d`. */
  function RunEndingAt(ds: seq<Day>, d: Day): nat
    decreases if d in ds then d - Seqs.Min(ds) + 1 else 0
  {
    if d in ds then 1 + RunEndingAt(ds, d - 1) else 0
  }

  lemma {:induction false} RunEndingAtSpec(ds: seq<Day>, d: Day)
    ensures IsRunEndingAt(ds, d, RunEndingAt(ds, d))
    decreases if d in ds then d - Seqs.Min(ds) + 1 else 0
  {
    if d in ds {
      RunEndingAtSpec(ds, d - 1);
    }
  }

  /** A run is determined by its last day and the first missing day before it. */
  lemma RunEndingAtIs(ds: seq<Day>, d: Day, m: nat)
    requires IsRunEndingAt(ds, d, m)
    ensures RunEndingAt(ds, d) == m
  {
    RunEndingAtSpec(ds, d);
  }

  /** The current streak: the run ending today if today has an entry, otherwise the
      run ending yesterday (zero when yesterday has none either). */
  function CurrentStreak(ds: seq<Day>, today: Day): (n: nat)
    ensures n == 0 <==> today !in ds && today - 1 !in ds
    ensures n > 0 ==> IsRunEndingAt(ds, if today in ds then today else today - 1, n)
  {
    RunEndingAtSpec(ds, today);
    RunEndingAtSpec(ds, today - 1);
    if today in ds then RunEndingAt(ds, today) else RunEndingAt(ds, today - 1)
  }

  /** `n` is the length of a longest run of consecutive days in `ds`. */
  predicate IsLongestRun(ds: seq<Day>, n: nat) {
    && (exists d :: d in ds && n == RunEndingAt(ds, d))
    && (forall d :: d in ds ==> RunEndingAt(ds, d) <= n)
  }

  /** The longest run covers at least one day and is never shorter than the current
      streak. */
  lemma LongestBoundsCurrent(ds: seq<Day>, today: Day, longest: nat)
    requires IsLongestRun(ds, longest)
    ensures 1 <= longest && CurrentStreak(ds, today) <= longest
  {
    var d :| d in ds && longest == RunEndingAt(ds, d);
    RunEndingAtSpec(ds, d);
    if today in ds {
      assert RunEndingAt(ds, today) <= longest;
    } else if today - 1 in ds {
      assert RunEndingAt(ds, today - 1) <= longest;
    }
  }

  /** `(today - sortedDates.Min()).Days + 1 - sortedDates.Count`; zero without entries. */
  function MissedDays(dates: seq<Day>, today: Day): int {
    if |dates| == 0 then 0
    else
      var sd := DistinctDescending(dates);
      (today - Seqs.Min(sd) + 1) - |sd|
  }

  /** Distinct days within `[lo, hi]` number at most `hi - lo + 1`. */
  lemma DistinctDaysFit(sd: seq<Day>, lo: Day, hi: Day)
    requires StrictlyDescending(sd) && |sd| > 0
    requires forall x :: x in sd ==> lo <= x <= hi
    ensures |sd| <= hi - lo + 1
  {
    DescendingGap(sd, 0, |sd| - 1);
    assert sd[0] in sd && sd[|sd| - 1] in sd;
  }

  /** When every day of `[lo, hi]` is present, the first `hi - lo + 1` positions hold
      `hi`, `hi - 1`, ..., `lo`. */
  lemma {:induction false} DenseDays(sd: seq<Day>, lo: Day, hi: Day, i: nat)
    requires StrictlyDescending(sd)
    requires forall x :: x in sd ==> x <= hi
    requires forall k :: lo <= k <= hi ==> k in sd
    requires i <= hi - lo
    ensures i < |sd| && sd[i] == hi - i
  {
    assert hi - i in sd;
    var k :| 0 <= k < |sd| && sd[k] == hi - i;
    if i == 0 {
      assert sd[0] in sd;
    } else {
      DenseDays(sd, lo, hi, i - 1);
      assert k >= i;
    }
  }

  /** Missed days are never negative when no entry lies after today. */
  lemma MissedDaysNotNegative(dates: seq<Day>, today: Day)
    requires forall x :: x in dates ==> x <= today
    ensures MissedDays(dates, today) >= 0
  {
    if |dates| > 0 {
      var sd := DistinctDescending(dates);
      DistinctDaysFit(sd, Seqs.Min(sd), today);
    }
  }

  /** With no entry after today, no day is missed exactly when every day from the
      earliest entry to today has an entry. */
  lemma NoMissedDaysIffEveryDay(dates: seq<Day>, today: Day)
    requires |dates| > 0 && forall x :: x in dates ==> x <= today
    ensures MissedDays(dates, today) == 0
        <==> forall k :: Seqs.Min(dates) <= k <= today ==> k in dates
  {
    var sd := DistinctDescending(dates);
    var lo := Seqs.Min(sd);
    assert lo == Seqs.Min(dates) by {
      assert lo in dates && Seqs.Min(dates) in sd;
    }
    if MissedDays(dates, today) == 0 {
      assert |sd| == today - lo + 1;
      var last := |sd| - 1;
      assert sd[0] in sd && sd[last] in sd;
      DescendingGap(sd, 0, last);
      forall k | lo <= k <= today ensures k in dates {
        var i := today - k;
        DescendingGap(sd, 0, i);
        DescendingGap(sd, i, last);
        assert sd[i] == k;
      }
    }
    if forall k :: lo <= k <= today ==> k in dates {
      DenseDays(sd, lo, today, today - lo);
      DistinctDaysFit(sd, lo, today);
    }
  }

  /** A single entry dated ten days after today gives minus ten missed days. */
  lemma FutureEntryMakesMissedDaysNegative(today: Day)
    ensures MissedDays([today + 10], today) == -10
  {
    var sd := DistinctDescending([today + 10]);
    assert today + 10 in sd;
    assert forall i :: 0 <= i < |sd| ==> sd[i] == today + 10;
    assert Seqs.Min(sd) in sd;
  }

  /** `CalculateStreaks` over the entry days. */
  method CalculateStreaks(dates: seq<Day>, today: Day) returns (current: nat, longest: nat, missed: int)
    ensures current == CurrentStreak(dates, today)
    ensures |dates| == 0 ==> longest == 0
    ensures |dates| > 0 ==> IsLongestRun(dates, longest)
    ensures missed == MissedDays(dates, today)
  {
    if |dates| == 0 {
      return 0, 0, 0;
    }
    var sortedDates := DistinctDescending(dates);
    assert dates[0] in sortedDates;
    current := CountCurrentStreak(dates, sortedDates, today);
    longest := CountLongestStreak(sortedDates);
    LongestRunSameDays(sortedDates, dates, longest);
    missed := (today - Seqs.Min(sortedDates) + 1) - |sortedDates|;
  }

  /** The `while (sortedDates.Contains(checkDate))` walk back from today or yesterday. */
  method CountCurrentStreak(dates: seq<Day>, sd: seq<Day>, today: Day) returns (current: nat)
    requires |sd| > 0 && forall x :: x in sd <==> x in dates
    ensures current == CurrentStreak(dates, today)
  {
    current := 0;
    var check := today;
    ghost var top := today;
    if today in sd {
      current := 1;
      check := today - 1;
    } else if today - 1 in sd {
      current := 1;
      check := today - 2;
      top := today - 1;
    }
    while check in sd
      invariant current == top - check
      invariant forall k :: check < k <= top ==> k in dates
      invariant top == today || (top == today - 1 && today !in dates)
      invariant today !in dates && today - 1 !in dates ==> check == today
      decreases check - Seqs.Min(sd)
    {
      current := current + 1;
      check := check - 1;
    }
    RunEndingAtIs(dates, top, current);
  }

  /** The runs ending at each day of `days`. */
  function RunsAt(ds: seq<Day>, days: seq<Day>): (r: seq<nat>)
    ensures |r| == |days|
  {
    if days == [] then [] else [RunEndingAt(ds, days[0])] + RunsAt(ds, days[1..])
  }

  lemma {:induction false} RunsAtSpec(ds: seq<Day>, days: seq<Day>)
    ensures forall j {:trigger RunsAt(ds, days)[j]} :: 0 <= j < |days| ==> RunsAt(ds, days)[j] == RunEndingAt(ds, days[j])
  {
    if days != [] {
      RunsAtSpec(ds, days[1..]);
    }
  }

  /** The largest of the first `k` numbers of `r` (0 when `k` is 0). */
  function MaxOfFirst(r: seq<nat>, k: nat): nat
    requires k <= |r|
  {
    if k == 0 then 0
    else
      var rest := MaxOfFirst(r, k - 1);
      if rest < r[k - 1] then r[k - 1] else rest
  }

  /** The maximum bounds every one of the numbers and, when there are any, is one of them. */
  lemma {:induction false} MaxOfFirstIsMax(r: seq<nat>, k: nat)
    requires k <= |r|
    ensures forall j :: 0 <= j < k ==> r[j] <= MaxOfFirst(r, k)
    ensures k > 0 ==> exists j :: 0 <= j < k && MaxOfFirst(r, k) == r[j]
  {
    if k > 0 {
      MaxOfFirstIsMax(r, k - 1);
      if MaxOfFirst(r, k - 1) < r[k - 1] || k == 1 {
        assert MaxOfFirst(r, k) == r[k - 1];
      }
    }
  }

  /** Closing a segment `s..e` whose values count down from `e - s + 1` to 1: the
      maximum becomes the larger of the previous maximum and the segment length. */
  lemma {:induction false} CloseSegment(r: seq<nat>, s: nat, e: nat, t: nat)
    requires s < t <= e + 1 <= |r|
    requires forall j :: s <= j <= e ==> r[j] == e - j + 1
    ensures MaxOfFirst(r, t) == if MaxOfFirst(r, s) < e - s + 1 then e - s + 1 else MaxOfFirst(r, s)
  {
    if t > s + 1 {
      CloseSegment(r, s, e, t - 1);
    }
  }

  /** The `for` loop over neighbouring days that tracks `tempStreak`. */
  method CountLongestStreak(sd: seq<Day>) returns (longest: nat)
    requires |sd| > 0 && StrictlyDescending(sd)
    ensures IsLongestRun(sd, longest)
  {
    ghost var runs := RunsAt(sd, sd);
    longest := 0;
    var temp := 1;
    ghost var start := 0;
    var i := 0;
    while i < |sd| - 1
      invariant 0 <= start <= i < |sd|
      invariant temp == i - start + 1
      invariant forall j :: start <= j <= i ==> sd[j] + j == sd[start] + start
      invariant longest == MaxOfFirst(runs, start)
    {
      if sd[i] - sd[i + 1] == 1 {
        assert sd[i + 1] + (i + 1) == sd[start] + start;
        temp := temp + 1;
      } else {
        GapBelow(sd, i);
        SegmentMax(sd, runs, start, i);
        if temp > longest {
          longest := temp;
        }
        temp := 1;
        start := i + 1;
      }
      i := i + 1;
    }
    BelowLast(sd);
    SegmentMax(sd, runs, start, i);
    if temp > longest {
      longest := temp;
    }
    RunsAtSpec(sd, sd);
    MaxRunIsLongest(sd, runs);
  }

  /** Closing the maximal segment `sd[start..i]` of consecutive days. */
  lemma SegmentMax(sd: seq<Day>, runs: seq<nat>, start: nat, i: nat)
    requires start <= i < |sd| && runs == RunsAt(sd, sd)
    requires forall j :: start <= j <= i ==> sd[j] + j == sd[start] + start
    requires sd[i] - 1 !in sd
    ensures MaxOfFirst(runs, i + 1)
         == if MaxOfFirst(runs, start) < i - start + 1 then i - start + 1 else MaxOfFirst(runs, start)
  {
    RunsAtSpec(sd, sd);
    SegmentRuns(sd, start, i);
    CloseSegment(runs, start, i, i + 1);
  }

  lemma MaxRunIsLongest(sd: seq<Day>, runs: seq<nat>)
    requires |sd| > 0 && |runs| == |sd|
    requires forall j {:trigger runs[j]} :: 0 <= j < |sd| ==> runs[j] == RunEndingAt(sd, sd[j])
    ensures IsLongestRun(sd, MaxOfFirst(runs, |sd|))
  {
    var longest := MaxOfFirst(runs, |sd|);
    MaxOfFirstIsMax(runs, |sd|);
    var w :| 0 <= w < |sd| && longest == runs[w];
    assert sd[w] in sd;
    forall d | d in sd ensures RunEndingAt(sd, d) <= longest {
      var k :| 0 <= k < |sd| && sd[k] == d;
      assert runs[k] <= longest;
    }
  }

  /** Between two neighbours of a strictly descending list no listed day lies. */
  lemma GapBelow(sd: seq<Day>, i: int)
    requires StrictlyDescending(sd) && 0 <= i < |sd| - 1 && sd[i] - sd[i + 1] != 1
    ensures sd[i] - 1 !in sd
  {
  }

  lemma BelowLast(sd: seq<Day>)
    requires StrictlyDescending(sd) && |sd| > 0
    ensures sd[|sd| - 1] - 1 !in sd
  {
  }

  /** A maximal segment of consecutive days `sd[s..e]` (nothing directly below
      `sd[e]`): the run ending at `sd[j]` reaches down to `sd[e]`. */
  lemma SegmentRuns(sd: seq<Day>, s: int, e: int)
    requires 0 <= s <= e < |sd|
    requires forall j :: s <= j <= e ==> sd[j] + j == sd[s] + s
    requires sd[e] - 1 !in sd
    ensures forall j {:trigger RunEndingAt(sd, sd[j])} :: s <= j <= e ==> RunEndingAt(sd, sd[j]) == e - j + 1
  {
    forall j | s <= j <= e ensures RunEndingAt(sd, sd[j]) == e - j + 1 {
      forall k | sd[j] - (e - j + 1) < k <= sd[j] ensures k in sd {
        assert sd[j + (sd[j] - k)] == k;
      }
      RunEndingAtIs(sd, sd[j], e - j + 1);
    }
  }

  /** Runs depend only on which days have entries. */
  lemma {:induction false} RunEndingAtSameDays(ds: seq<Day>, es: seq<Day>, d: Day)
    requires forall x :: x in ds <==> x in es
    ensures RunEndingAt(ds, d) == RunEndingAt(es, d)
  {
    RunEndingAtSpec(ds, d);
    RunEndingAtIs(es, d, RunEndingAt(ds, d));
  }

  lemma LongestRunSameDays(ds: seq<Day>, es: seq<Day>, n: nat)
    requires forall x :: x in ds <==> x in es
    requires IsLongestRun(ds, n)
    ensures IsLongestRun(es, n)
  {
    var d :| d in ds && n == RunEndingAt(ds, d);
    RunEndingAtSameDays(ds, es, d);
    forall d' | d' in es ensures RunEndingAt(es, d') <= n {
      RunEndingAtSameDays(ds, es, d');
    }
  }
}
