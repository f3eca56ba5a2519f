/** The analytics page's view model: the date filter with its presets, the
    quick-stat properties copied from the loaded analytics, the display text of
    the most frequent mood, and the word-count chart (the latest 30 points,
    each scaled to a bar between 10 and 100 pixels high). */
module AnalyticsView {
  import opened Wrappers
  import Seqs
  import Moods
  import opened Journal
  import Analytics

  /** One bar of the word-count chart. */
  datatype WordCountTrendDisplay = WordCountTrendDisplay(date: Day, wordCount: nat, barHeight: real, dateLabel: string)

  /** What a reload reads from the database: every entry, the mood catalogue,
      the tag names of each entry id and the word count of each entry. */
  datatype JournalData = JournalData(
    entries: seq<Entry>,
    moods: seq<Moods.Mood>,
    tagsOf: int -> seq<string>,
    wordCount: Entry -> nat)

  const MinHeight: real := 10.0
  const MaxHeight: real := 100.0
  /** How many of the most recent points the chart shows. */
  const ChartPoints: nat := 30

  /** `CalculateBarHeight`: 10 pixels for no words, otherwise 10 plus the
      word count's share of the maximum times 90. */
  function BarHeight(wordCount: nat, maxWordCount: nat): real
    requires maxWordCount > 0
  {
    if wordCount == 0 then MinHeight
    else MinHeight + (wordCount as real / maxWordCount as real) * (MaxHeight - MinHeight)
  }

  /** The special case for 0 words agrees with the general formula. */
  lemma BarHeightFormula(wordCount: nat, maxWordCount: nat)
    requires maxWordCount > 0
    ensures BarHeight(wordCount, maxWordCount) == 10.0 + 90.0 * wordCount as real / maxWordCount as real
  {
    if wordCount > 0 {
      var w := wordCount as real;
      var m := maxWordCount as real;
      var q := w / m;
      assert q * m == w;
      assert (90.0 * w) / m * m == 90.0 * w;
      assert q * 90.0 == 90.0 * w / m;
    }
  }

  /** Bars of word counts up to the maximum stay between 10 and 100 pixels,
      and the maximum itself gets the full 100. */
  lemma BarHeightRange(wordCount: nat, maxWordCount: nat)
    requires 0 < maxWordCount && wordCount <= maxWordCount
    ensures MinHeight <= BarHeight(wordCount, maxWordCount) <= MaxHeight
    ensures wordCount == maxWordCount ==> BarHeight(wordCount, maxWordCount) == MaxHeight
  {
    if wordCount > 0 {
      var share := wordCount as real / maxWordCount as real;
      assert 0.0 < share <= 1.0 by {
        assert share * maxWordCount as real == wordCount as real;
      }
    }
  }

  /** More words never make a lower bar. */
  lemma BarHeightMonotone(a: nat, b: nat, maxWordCount: nat)
    requires 0 < maxWordCount && a <= b
    ensures BarHeight(a, maxWordCount) <= BarHeight(b, maxWordCount)
  {
    var m := maxWordCount as real;
    assert a as real / m <= b as real / m by {
      assert a as real / m * m == a as real;
      assert b as real / m * m == b as real;
    }
  }

  function ByDateDescending(): Analytics.WordCountTrend -> int {
    (t: Analytics.WordCountTrend) => -t.date
  }

  function ByDateAscending(): Analytics.WordCountTrend -> int {
    (t: Analytics.WordCountTrend) => t.date
  }

  /** `OrderByDescending(date).Take(30).OrderBy(date)`. */
  function RecentTrends(trends: seq<Analytics.WordCountTrend>): seq<Analytics.WordCountTrend> {
    var latest := Seqs.SortBy(trends, ByDateDescending());
    Seqs.SortBy(latest[..Seqs.MinNat(ChartPoints, |trends|)], ByDateAscending())
  }

  /** The chart keeps min(30, n) of the points. */
  lemma RecentTrendsShape(trends: seq<Analytics.WordCountTrend>)
    ensures var r := RecentTrends(trends);
      && |r| == Seqs.MinNat(ChartPoints, |trends|)
      && multiset(r) <= multiset(trends)
  {
    var latest := Seqs.SortBy(trends, ByDateDescending());
    Seqs.TakeMultiset(latest, Seqs.MinNat(ChartPoints, |trends|));
  }

  /** The chart shows its points in ascending date order. */
  lemma RecentTrendsAscending(trends: seq<Analytics.WordCountTrend>)
    ensures var r := RecentTrends(trends);
      forall i, j :: 0 <= i < j < |r| ==> r[i].date <= r[j].date
  {
    var r := RecentTrends(trends);
    assert Seqs.SortedBy(r, ByDateAscending());
    forall i, j | 0 <= i < j < |r| ensures r[i].date <= r[j].date {
      assert ByDateAscending()(r[i]) <= ByDateAscending()(r[j]);
    }
  }

  /** A point is left off the chart only when every point on it is at least
      as recent. */
  lemma RecentTrendsAreLatest(trends: seq<Analytics.WordCountTrend>)
    ensures var r := RecentTrends(trends);
      forall x, y :: x in trends && x !in r && y in r ==> x.date <= y.date
  {
    var latest := Seqs.SortBy(trends, ByDateDescending());
    var top := latest[..Seqs.MinNat(ChartPoints, |trends|)];
    var r := RecentTrends(trends);
    assert multiset(r) == multiset(top);
    forall x, y | x in trends && x !in r && y in r ensures x.date <= y.date {
      assert x !in top by {
        assert x !in multiset(r);
      }
      assert y in top by {
        assert y in multiset(r);
      }
      assert x in latest by {
        assert x in multiset(trends);
      }
      Seqs.SortedPrefix(latest, ByDateDescending(), |top|, x, y);
    }
  }

  /** `trends.Select(t => t.WordCount)`. */
  function WordCounts(trends: seq<Analytics.WordCountTrend>): seq<int> {
    Seqs.Select(trends, (t: Analytics.WordCountTrend) => t.wordCount)
  }

  /** The scaling maximum: the largest word count shown, or 100 when there is
      none or it is 0. */
  function ScaleMax(trends: seq<Analytics.WordCountTrend>): (m: nat)
    ensures m > 0
  {
    var largest := if |trends| > 0 then Seqs.Max(WordCounts(trends)) else 100;
    if largest <= 0 then 100 else largest
  }

  /** The scaling maximum bounds every word count shown; when some word count
      is positive it is the largest of them. */
  lemma ScaleMaxBounds(trends: seq<Analytics.WordCountTrend>)
    ensures forall i :: 0 <= i < |trends| ==> trends[i].wordCount <= ScaleMax(trends)
    ensures (exists i :: 0 <= i < |trends| && trends[i].wordCount > 0) ==>
              exists i :: 0 <= i < |trends| && trends[i].wordCount == ScaleMax(trends)
  {
    if |trends| > 0 {
      var ws := WordCounts(trends);
      forall i | 0 <= i < |trends| ensures trends[i].wordCount <= ScaleMax(trends) {
        assert ws[i] in ws;
      }
      if exists i :: 0 <= i < |trends| && trends[i].wordCount > 0 {
        var i :| 0 <= i < |trends| && trends[i].wordCount > 0;
        assert ws[i] in ws;
        var j :| 0 <= j < |ws| && ws[j] == Seqs.Max(ws);
        assert trends[j].wordCount == ScaleMax(trends);
      }
    }
  }

  /** `LoadWordCountTrends`' pipeline: nothing for no points; otherwise the
      recent points with their date, word count, bar height and day label. */
  function TrendDisplay(trends: seq<Analytics.WordCountTrend>, dayLabel: Day -> string): seq<WordCountTrendDisplay> {
    if |trends| == 0 then []
    else
      var recent := RecentTrends(trends);
      var m := ScaleMax(recent);
      Bars(recent, m, dayLabel)
  }

  /** One bar per point, scaled against `m`. */
  function Bars(recent: seq<Analytics.WordCountTrend>, m: nat, dayLabel: Day -> string): (d: seq<WordCountTrendDisplay>)
    requires m > 0
    ensures |d| == |recent|
  {
    seq(|recent|, i requires 0 <= i < |recent| =>
      WordCountTrendDisplay(recent[i].date, recent[i].wordCount, BarHeight(recent[i].wordCount, m), dayLabel(recent[i].date)))
  }

  /** Every bar keeps its point's date and word count and is between 10 and
      100 pixels high. */
  lemma TrendDisplayBars(trends: seq<Analytics.WordCountTrend>, dayLabel: Day -> string)
    ensures var d := TrendDisplay(trends, dayLabel);
      && |d| == Seqs.MinNat(ChartPoints, |trends|)
      && forall i :: 0 <= i < |d| ==>
           && d[i].date == RecentTrends(trends)[i].date
           && d[i].wordCount == RecentTrends(trends)[i].wordCount
           && MinHeight <= d[i].barHeight <= MaxHeight
  {
    RecentTrendsShape(trends);
    if |trends| > 0 {
      var recent := RecentTrends(trends);
      var m := ScaleMax(recent);
      var d := TrendDisplay(trends, dayLabel);
      ScaleMaxBounds(recent);
      forall i | 0 <= i < |d| ensures MinHeight <= d[i].barHeight <= MaxHeight {
        BarHeightRange(recent[i].wordCount, m);
      }
    }
  }

  /** Bars are ordered as their word counts are. */
  lemma TrendDisplayMonotone(trends: seq<Analytics.WordCountTrend>, dayLabel: Day -> string)
    ensures var d := TrendDisplay(trends, dayLabel);
      forall i, j :: 0 <= i < |d| && 0 <= j < |d| && d[i].wordCount <= d[j].wordCount ==> d[i].barHeight <= d[j].barHeight
  {
    if |trends| > 0 {
      var recent := RecentTrends(trends);
      var m := ScaleMax(recent);
      var d := TrendDisplay(trends, dayLabel);
      forall i, j | 0 <= i < |d| && 0 <= j < |d| && d[i].wordCount <= d[j].wordCount
        ensures d[i].barHeight <= d[j].barHeight
      {
        BarHeightMonotone(recent[i].wordCount, recent[j].wordCount, m);
      }
    }
  }

  /** When any point shown has words, the tallest bar is the full 100 pixels. */
  lemma TrendDisplayFullBar(trends: seq<Analytics.WordCountTrend>, dayLabel: Day -> string, i: nat)
    requires var d := TrendDisplay(trends, dayLabel); i < |d| && d[i].wordCount > 0
    ensures var d := TrendDisplay(trends, dayLabel);
      exists j :: 0 <= j < |d| && d[j].barHeight == MaxHeight
  {
    var recent := RecentTrends(trends);
    var m := ScaleMax(recent);
    var d := TrendDisplay(trends, dayLabel);
    ScaleMaxBounds(recent);
    assert recent[i].wordCount > 0;
    var j :| 0 <= j < |recent| && recent[j].wordCount == m;
    BarHeightRange(recent[j].wordCount, m);
    assert d[j].barHeight == MaxHeight;
  }

  /** The text shown for the most frequent mood: "No mood data" without
      one, its label otherwise. */
  function MoodDisplay(mood: Option<Moods.Mood>): string {
    match mood
    case None => "No mood data"
    case Some(m) => Moods.Label(m)
  }

  class AnalyticsViewModel {
    var analyticsData: Option<Analytics.AnalyticsData>
    var filterStartDate: Option<Day>
    var filterEndDate: Option<Day>
    var isLoading: bool
    var currentStreak: nat
    var longestStreak: nat
    var totalEntries: nat
    var missedDays: int
    var mostFrequentMoodDisplay: Option<string>
    var positivePercentage: real
    var neutralPercentage: real
    var negativePercentage: real
    var topTags: seq<Analytics.TagStatistic>
    var averageWordCount: real
    var wordCountTrends: seq<WordCountTrendDisplay>

    constructor ()
      ensures analyticsData.None? && filterStartDate.None? && filterEndDate.None? && !isLoading
      ensures currentStreak == 0 && longestStreak == 0 && totalEntries == 0 && missedDays == 0
      ensures mostFrequentMoodDisplay.None?
      ensures positivePercentage == 0.0 && neutralPercentage == 0.0 && negativePercentage == 0.0
      ensures topTags == [] && averageWordCount == 0.0 && wordCountTrends == []
    {
      analyticsData := None;
      filterStartDate, filterEndDate := None, None;
      isLoading := false;
      currentStreak, longestStreak, totalEntries, missedDays := 0, 0, 0, 0;
      mostFrequentMoodDisplay := None;
      positivePercentage, neutralPercentage, negativePercentage := 0.0, 0.0, 0.0;
      topTags := [];
      averageWordCount := 0.0;
      wordCountTrends := [];
    }

    /** The page presents `a`: the quick stats, percentages, top tags and
        average are copied from it, the mood text and the chart are derived
        from it, and loading has finished. */
    predicate Presents(a: Analytics.AnalyticsData, dayLabel: Day -> string)
      reads this
    {
      && analyticsData == Some(a)
      && currentStreak == a.currentStreak && longestStreak == a.longestStreak
      && totalEntries == a.totalEntries && missedDays == a.missedDays
      && positivePercentage == a.positivePercentage && neutralPercentage == a.neutralPercentage
      && negativePercentage == a.negativePercentage
      && mostFrequentMoodDisplay == Some(MoodDisplay(a.mostFrequentMood))
      && topTags == a.mostUsedTags
      && averageWordCount == a.averageWordCount
      && wordCountTrends == TrendDisplay(a.wordCountTrends, dayLabel)
      && !isLoading
    }

    /** The page presents the analytics of `data` in the current filter
        window. */
    predicate Shows(data: JournalData, today: Day, dayLabel: Day -> string)
      reads this
    {
      && analyticsData.Some?
      && Analytics.IsAnalyticsOf(analyticsData.value, data.entries, filterStartDate, filterEndDate, today, data.moods, data.tagsOf, data.wordCount)
      && Presents(analyticsData.value, dayLabel)
    }

    /** `LoadAnalyticsAsync`: computes the analytics of the current window
        and presents them. */
    method LoadAnalytics(data: JournalData, today: Day, dayLabel: Day -> string)
      modifies this
      ensures filterStartDate == old(filterStartDate) && filterEndDate == old(filterEndDate)
      ensures Shows(data, today, dayLabel)
    {
      isLoading := true;
      var a := Analytics.GetAnalytics(data.entries, filterStartDate, filterEndDate, today, data.moods, data.tagsOf, data.wordCount);
      Present(a, dayLabel);
    }

    /** The copying half of `LoadAnalyticsAsync`; the filter is left alone. */
    method Present(a: Analytics.AnalyticsData, dayLabel: Day -> string)
      modifies this`analyticsData, this`currentStreak, this`longestStreak, this`totalEntries, this`missedDays
      modifies this`positivePercentage, this`neutralPercentage, this`negativePercentage
      modifies this`mostFrequentMoodDisplay, this`topTags, this`averageWordCount, this`wordCountTrends, this`isLoading
      ensures Presents(a, dayLabel)
    {
      CopyFigures(a);
      LoadWordCountTrends(dayLabel);
      isLoading := false;
    }

    /** The field-by-field copy of the figures. */
    method CopyFigures(a: Analytics.AnalyticsData)
      modifies this`analyticsData, this`currentStreak, this`longestStreak, this`totalEntries, this`missedDays
      modifies this`positivePercentage, this`neutralPercentage, this`negativePercentage
      modifies this`mostFrequentMoodDisplay, this`topTags, this`averageWordCount
      ensures analyticsData == Some(a)
      ensures currentStreak == a.currentStreak && longestStreak == a.longestStreak
      ensures totalEntries == a.totalEntries && missedDays == a.missedDays
      ensures positivePercentage == a.positivePercentage && neutralPercentage == a.neutralPercentage
      ensures negativePercentage == a.negativePercentage
      ensures mostFrequentMoodDisplay == Some(MoodDisplay(a.mostFrequentMood))
      ensures topTags == a.mostUsedTags && averageWordCount == a.averageWordCount
    {
      analyticsData := Some(a);
      currentStreak := a.currentStreak;
      longestStreak := a.longestStreak;
      totalEntries := a.totalEntries;
      missedDays := a.missedDays;
      positivePercentage := a.positivePercentage;
      neutralPercentage := a.neutralPercentage;
      negativePercentage := a.negativePercentage;
      mostFrequentMoodDisplay := Some(MoodDisplay(a.mostFrequentMood));
      topTags := a.mostUsedTags;
      averageWordCount := a.averageWordCount;
    }

    /** `LoadWordCountTrends`: only the chart changes. */
    method LoadWordCountTrends(dayLabel: Day -> string)
      modifies this`wordCountTrends
      ensures wordCountTrends == if analyticsData.None? then [] else TrendDisplay(analyticsData.value.wordCountTrends, dayLabel)
    {
      if analyticsData.None? || |analyticsData.value.wordCountTrends| == 0 {
        wordCountTrends := [];
        return;
      }
      var data := analyticsData.value.wordCountTrends;
      var trends := RecentTrends(data);
      var maxWordCount := ChartMax(trends);
      wordCountTrends := Bars(trends, maxWordCount, dayLabel);
    }

    /** The largest word count on the chart, with 100 standing in for none or 0. */
    static method ChartMax(trends: seq<Analytics.WordCountTrend>) returns (maxWordCount: nat)
      ensures maxWordCount == ScaleMax(trends)
    {
      maxWordCount := if |trends| > 0 then Seqs.Max(WordCounts(trends)) else 100;
      if maxWordCount == 0 {
        maxWordCount := 100;
      }
    }

    /** `ClearDateFilterAsync`: no bounds, then reload. */
    method ClearDateFilter(data: JournalData, today: Day, dayLabel: Day -> string)
      modifies this
      ensures filterStartDate.None? && filterEndDate.None?
      ensures Shows(data, today, dayLabel)
    {
      filterStartDate := None;
      filterEndDate := None;
      LoadAnalytics(data, today, dayLabel);
    }

    /** `SetLast30DaysAsync`: the window from 30 days ago to today, then reload. */
    method SetLast30Days(data: JournalData, today: Day, dayLabel: Day -> string)
      modifies this
      ensures filterStartDate == Some(today - 30) && filterEndDate == Some(today)
      ensures Shows(data, today, dayLabel)
    {
      filterStartDate := Some(today - 30);
      filterEndDate := Some(today);
      LoadAnalytics(data, today, dayLabel);
    }

    /** `SetLast90DaysAsync`: the window from 90 days ago to today, then reload. */
    method SetLast90Days(data: JournalData, today: Day, dayLabel: Day -> string)
      modifies this
      ensures filterStartDate == Some(today - 90) && filterEndDate == Some(today)
      ensures Shows(data, today, dayLabel)
    {
      filterStartDate := Some(today - 90);
      filterEndDate := Some(today);
      LoadAnalytics(data, today, dayLabel);
    }

    /** `SetThisYearAsync`: the window from 1 January of the current year
        (`yearStart`, read from the clock) to today, then reload. */
    method SetThisYear(data: JournalData, today: Day, yearStart: Day, dayLabel: Day -> string)
      modifies this
      ensures filterStartDate == Some(yearStart) && filterEndDate == Some(today)
      ensures Shows(data, today, dayLabel)
    {
      filterStartDate := Some(yearStart);
      filterEndDate := Some(today);
      LoadAnalytics(data, today, dayLabel);
    }
  }

  /** After a preset, the total counts exactly the entries dated inside the
      preset window, both ends included. */
  lemma PresetWindowIsInclusive(entries: seq<Entry>, today: Day, days: nat)
    ensures forall e :: e in Analytics.Window(entries, Some(today - days), Some(today)) <==>
                          e in entries && today - days <= e.date <= today
  {
  }
}
