/** A journal entry as the services and view models see it: its stored columns
    and the navigation properties filled in after loading. */
module Journal {
  import opened Wrappers
  import Moods
  import Categories
  import Tags

  /** Dates are whole day numbers (`DateTime.Date`); a later day is a larger number. */
  type Day = int

  datatype Entry = Entry(
    id: int,
    date: Day,
    title: string,
    content: string,
    primaryMoodId: Option<int>,
    secondaryMood1Id: Option<int>,
    secondaryMood2Id: Option<int>,
    categoryId: Option<int>,
    // navigation properties, filled by the loading code
    primaryMood: Option<Moods.Mood>,
    secondaryMood1: Option<Moods.Mood>,
    secondaryMood2: Option<Moods.Mood>,
    category: Option<Categories.Category>,
    tags: seq<Tags.Tag>)

  /** `entries.Select(e => e.Date.Date)`. */
  function Dates(entries: seq<Entry>): (ds: seq<Day>)
    ensures |ds| == |entries|
    ensures forall i :: 0 <= i < |entries| ==> ds[i] == entries[i].date
  {
    seq(|entries|, i requires 0 <= i < |entries| => entries[i].date)
  }

  /** The three mood slots of an entry, in slot order. */
  function MoodSlots(e: Entry): seq<Option<int>> {
    [e.primaryMoodId, e.secondaryMood1Id, e.secondaryMood2Id]
  }
}
