# Personal journal: analytics, view models, PIN security, theme and export

This project models the computational core of a desktop personal-journal
application in Dafny and proves what it promises. The core has these parts.

- **Analytics engine.** It filters entries by an optional inclusive date window. It computes:
  - the current streak, the longest streak and the number of missed days;
  - the mood counts, rolled up into Positive, Neutral and Negative, with percentages and the most frequent mood;
  - the tag usage ranking (top ten);
  - the average word count and a word-count series.
- **Analytics page.** It keeps the 30 most recent word-count points and scales each one to a bar between 10 and 100 pixels. The date-window presets set the filter and reload.
- **Seed catalogues.** These are the 15 default moods, 31 default tags and 6 default categories.
- **Search page selection state.** Selections are turned into search criteria, and moods and tags are toggled in and out of the selection.
- **Entry editor.** It loads a stored entry into the form, builds the entry to save, guards deletion, toggles tags and adds tags by name, matching names case-insensitively.
- **PIN security.** A state machine over the settings store, with input checks on the security page and the login page.
- **Light/dark theme.** Stored in the same settings store.
- **HTML export.** It writes a header, one block per entry (newest first) and a footer.

Modules, one per source file:
- `Analytics` (analytics.dfy)
- `Streaks` (streaks.dfy, the streak half of the analytics service)
- `AnalyticsView`
- `Moods`, `Tags`, `Categories`
- `Journal` (the entry record)
- `SearchView`, `EntryDetail`
- `Security`, `SecurityView`
- `Settings` (the key/value table)
- `Theme`
- `Export`

Three modules are shared helpers:
- `Seqs`: filtering, counting in insertion order, stable sorting and toggling;
- `Text`: white space, UTF-16 length, ASCII case folding and decimal digits;
- `Wrappers`: `Option`.

Representation choices:
- **Dates.** Dates are whole day numbers (`Day = int`). Today, and the first day of the current year, are parameters.
- **Numbers.** Percentages, the average and bar heights are `real`.
- **C# dictionaries.** A dictionary that is counted into is a pair: its keys in insertion order (`Seqs.Dedup`) and a key-to-count map (`Seqs.CountMap`). That order is the order in which it is enumerated.
- **LINQ sorting.** `OrderBy` and `OrderByDescending` are one stable insertion sort, `Seqs.SortBy`. A descending sort uses a negated key.
- **Parameters.** These are passed in, not computed:
  - the SHA-256/Base64 PIN hash, as a function to 44-character strings;
  - `WebUtility.HtmlEncode`;
  - the date formats;
  - the style sheet text;
  - the word count of an entry;
  - the tags of an entry;
  - the mood catalogue;
  - the search service.
- **View models and services.** These are classes whose methods change their fields. The settings table is a `map<string, string>` inside `Settings.SettingsStore`.
- **Export output.** `Export.GenerateHtmlContent` builds a list of lines exactly as the source appends them. Each line has a typed shape (`Export.Line`), and `Export.Render` gives the text of each shape.

`JournalEntry.cs` declares no `WordCount`, `CategoryId`, `Category` or `Tags`, yet the services read all four. The `Journal.Entry` datatype carries the category id and the category and tag navigation values. The word count is a per-entry parameter.

## Model

| member | source | states |
|---|---|---|
| Analytics.Window | PersonalJournalDesktopApp/Services/AnalyticsService.cs:27-31 | an entry survives the filter exactly when it is in the input, not before the start and not after the end; a missing bound does not restrict |
| Analytics.WindowIsOneFilter | PersonalJournalDesktopApp/Services/AnalyticsService.cs:27-31 | the two successive `Where` filters equal one filter by the inclusive window |
| Analytics.GetAnalytics | PersonalJournalDesktopApp/Services/AnalyticsService.cs:22-51 | every figure of the result is computed over the entries in the window; `totalEntries` is their number |
| Streaks.DistinctDescending | PersonalJournalDesktopApp/Services/AnalyticsService.cs:63 | the distinct days are strictly descending and are exactly the days of the entries |
| Streaks.DedupOfDescending | PersonalJournalDesktopApp/Services/AnalyticsService.cs:63 | removing repeats from a non-increasing list leaves a strictly descending one |
| Streaks.CurrentStreak | PersonalJournalDesktopApp/Services/AnalyticsService.cs:66-88 | the current streak is 0 iff neither today nor yesterday has an entry; otherwise it is the run of consecutive days ending today, or yesterday when today has none |
| Streaks.RunEndingAtSpec | PersonalJournalDesktopApp/Services/AnalyticsService.cs:82-86 | the run ending at a day covers consecutive days with entries and the day before it has none |
| Streaks.RunEndingAtIs | PersonalJournalDesktopApp/Services/AnalyticsService.cs:82-86 | a run is determined by its last day |
| Streaks.LongestBoundsCurrent | PersonalJournalDesktopApp/Services/AnalyticsService.cs:91-108 | the longest streak is at least 1 and at least the current streak |
| Streaks.CalculateStreaks | PersonalJournalDesktopApp/Services/AnalyticsService.cs:53-117 | with no entries all three figures are 0; otherwise current is the current streak, longest is the length of a longest run, and missed is the missed-day count |
| Streaks.CountCurrentStreak | PersonalJournalDesktopApp/Services/AnalyticsService.cs:66-88 | the loop that walks back from today or yesterday returns the current streak |
| Streaks.CountLongestStreak | PersonalJournalDesktopApp/Services/AnalyticsService.cs:91-108 | the single pass over the descending days returns the length of a longest run |
| Streaks.MaxRunIsLongest | PersonalJournalDesktopApp/Services/AnalyticsService.cs:107 | the largest run ending at any entry day is a longest run |
| Streaks.SegmentMax | PersonalJournalDesktopApp/Services/AnalyticsService.cs:96-104 | closing a segment of consecutive days updates the running maximum with the segment's length |
| Streaks.MissedDaysNotNegative | PersonalJournalDesktopApp/Services/AnalyticsService.cs:111-116 | missed days are never negative when no entry is dated after today |
| Streaks.NoMissedDaysIffEveryDay | PersonalJournalDesktopApp/Services/AnalyticsService.cs:111-116 | missed days are 0 exactly when every day from the earliest entry to today has an entry |
| Streaks.FutureEntryMakesMissedDaysNegative | PersonalJournalDesktopApp/Services/AnalyticsService.cs:113-115 | one entry ten days in the future gives -10 missed days |
| Streaks.LongestRunSameDays | PersonalJournalDesktopApp/Services/AnalyticsService.cs:63 | the longest run depends only on the set of days, so it is the same before and after removing duplicates |
| Analytics.SlotMood | PersonalJournalDesktopApp/Services/AnalyticsService.cs:127-135 | a slot contributes one id exactly when it holds an id that resolves in the catalogue, and that id is the slot's |
| Analytics.Tally | PersonalJournalDesktopApp/Services/AnalyticsService.cs:132-134 | the keys in insertion order and the count map after counting one more key |
| Analytics.CountMoods | PersonalJournalDesktopApp/Services/AnalyticsService.cs:124-159 | the counting loop yields the keys, in first-counted order, and the counts of the resolved mood ids of all slots |
| Analytics.CountedMoodsResolve | PersonalJournalDesktopApp/Services/AnalyticsService.cs:129-130 | every counted id belongs to a mood of the catalogue |
| Analytics.Distribute | PersonalJournalDesktopApp/Services/AnalyticsService.cs:162-176 | the distribution has all three categories, each holding the summed counts of the ids whose mood has that category |
| Analytics.DistributionCountsSlots | PersonalJournalDesktopApp/Services/AnalyticsService.cs:169-176 | the rolled-up count of a category is the number of counted slots whose mood has that category |
| Analytics.DistributionTotal | PersonalJournalDesktopApp/Services/AnalyticsService.cs:178 | the three category totals add up to the number of resolved slots |
| Analytics.PercentageBounds | PersonalJournalDesktopApp/Services/AnalyticsService.cs:179-184 | a percentage lies in [0, 100], is 0 for a zero total and is 100 for the whole |
| Analytics.PercentagesSum | PersonalJournalDesktopApp/Services/AnalyticsService.cs:179-184 | with a positive total the three percentages sum to 100 |
| Analytics.CalculateMoodAnalytics | PersonalJournalDesktopApp/Services/AnalyticsService.cs:119-192 | the distribution, the three percentages over the number of resolved slots, and the most frequent mood |
| Analytics.RankedDescends | PersonalJournalDesktopApp/Services/AnalyticsService.cs:189 | ordering by count descending gives non-increasing counts |
| Analytics.RankedMembers | PersonalJournalDesktopApp/Services/AnalyticsService.cs:189 | ordering keeps exactly the same keys |
| Analytics.MostFrequentIsMaximum | PersonalJournalDesktopApp/Services/AnalyticsService.cs:189 | the first key after ordering is a key with the largest count |
| Analytics.MostFrequentIsFirst | PersonalJournalDesktopApp/Services/AnalyticsService.cs:189 | on ties the earliest key wins: every key before it has a strictly smaller count |
| Analytics.MostFrequentMoodIsMostCounted | PersonalJournalDesktopApp/Services/AnalyticsService.cs:187-191 | the most frequent mood is missing iff nothing was counted; otherwise it is a catalogue mood whose id is counted at least as often as any other |
| Analytics.MostFrequentMoodBreaksTiesByFirstCount | PersonalJournalDesktopApp/Services/AnalyticsService.cs:187-191 | among the most counted ids the one counted first wins |
| Analytics.CountOfCountMap | PersonalJournalDesktopApp/Services/AnalyticsService.cs:132-134 | the count kept for a key is the number of times it was counted |
| Analytics.CountTags | PersonalJournalDesktopApp/Services/AnalyticsService.cs:198-207 | the nested loop yields the tag names in first-use order and the number of uses of each |
| Analytics.TotalTagUses | PersonalJournalDesktopApp/Services/AnalyticsService.cs:209 | the sum of the tag counts is the number of tag uses |
| Analytics.MostUsedTagsEntries | PersonalJournalDesktopApp/Services/AnalyticsService.cs:211-220 | the list has min(10, distinct names) items, each a used name with its count and its share of all uses |
| Analytics.MostUsedTagsOrdered | PersonalJournalDesktopApp/Services/AnalyticsService.cs:211-213 | the listed names are distinct and their counts non-increasing |
| Analytics.MostUsedTagsOmitNoLarger | PersonalJournalDesktopApp/Services/AnalyticsService.cs:211-213 | a tag left out of the list is used no more often than any listed tag |
| Analytics.CalculateTagAnalytics | PersonalJournalDesktopApp/Services/AnalyticsService.cs:194-223 | the breakdown is the full name-to-count map and the top list is ranked from it over the total number of uses |
| Analytics.AverageWithinBounds | PersonalJournalDesktopApp/Services/AnalyticsService.cs:229 | the average word count lies between the smallest and the largest word count |
| Analytics.TotalWordsBounds | PersonalJournalDesktopApp/Services/AnalyticsService.cs:229 | the word total lies between n times the smallest and n times the largest word count |
| Analytics.WordCountTrendsOrdered | PersonalJournalDesktopApp/Services/AnalyticsService.cs:231-238 | one point per entry, in ascending date order |
| Analytics.WordCountTrendsPoints | PersonalJournalDesktopApp/Services/AnalyticsService.cs:231-238 | every point is the date and word count of an entry |
| Analytics.WordCountTrendsCover | PersonalJournalDesktopApp/Services/AnalyticsService.cs:231-238 | every entry's date and word count is a point |
| Analytics.CalculateWordCountAnalytics | PersonalJournalDesktopApp/Services/AnalyticsService.cs:225-240 | for entries, the mean word count and the date-ordered series; for none, 0 and an empty series |
| AnalyticsView.BarHeightFormula | PersonalJournalDesktopApp/ViewModels/AnalyticsViewModel.cs:150-160 | the bar height is 10 + 90 * words / max, the special case for 0 words included |
| AnalyticsView.BarHeightRange | PersonalJournalDesktopApp/ViewModels/AnalyticsViewModel.cs:150-160 | for 0 <= words <= max the height lies in [10, 100] and is 100 at the maximum |
| AnalyticsView.BarHeightMonotone | PersonalJournalDesktopApp/ViewModels/AnalyticsViewModel.cs:150-160 | more words never give a lower bar |
| AnalyticsView.RecentTrendsShape | PersonalJournalDesktopApp/ViewModels/AnalyticsViewModel.cs:128-132 | the chart keeps min(30, n) of the points and no others |
| AnalyticsView.RecentTrendsAscending | PersonalJournalDesktopApp/ViewModels/AnalyticsViewModel.cs:128-132 | the kept points are in ascending date order |
| AnalyticsView.RecentTrendsAreLatest | PersonalJournalDesktopApp/ViewModels/AnalyticsViewModel.cs:128-130 | a point left out is no later than any point kept |
| AnalyticsView.ScaleMaxBounds | PersonalJournalDesktopApp/ViewModels/AnalyticsViewModel.cs:135-136 | the scaling maximum bounds every shown word count and, when some is positive, equals the largest |
| AnalyticsView.TrendDisplayBars | PersonalJournalDesktopApp/ViewModels/AnalyticsViewModel.cs:139-145 | each bar keeps its point's date and word count and is between 10 and 100 high |
| AnalyticsView.TrendDisplayMonotone | PersonalJournalDesktopApp/ViewModels/AnalyticsViewModel.cs:139-145 | a point with fewer words never has a taller bar |
| AnalyticsView.TrendDisplayFullBar | PersonalJournalDesktopApp/ViewModels/AnalyticsViewModel.cs:135-145 | when any shown point has words, some bar is exactly 100 high |
| AnalyticsView.AnalyticsViewModel.ChartMax | PersonalJournalDesktopApp/ViewModels/AnalyticsViewModel.cs:135-136 | the largest shown word count, or 100 when there is none or it is 0 |
| AnalyticsView.AnalyticsViewModel.LoadWordCountTrends | PersonalJournalDesktopApp/ViewModels/AnalyticsViewModel.cs:119-148 | no analytics or no points give an empty chart; otherwise the chart is the scaled display of the 30 most recent points |
| AnalyticsView.AnalyticsViewModel.LoadAnalytics | PersonalJournalDesktopApp/ViewModels/AnalyticsViewModel.cs:84-117 | the page shows the analytics of the current window, the filter is unchanged and loading has finished |
| AnalyticsView.AnalyticsViewModel.Present | PersonalJournalDesktopApp/ViewModels/AnalyticsViewModel.cs:93-115 | the figures are copied, the mood text and chart are derived, and loading is over |
| AnalyticsView.AnalyticsViewModel.ClearDateFilter | PersonalJournalDesktopApp/ViewModels/AnalyticsViewModel.cs:209-214 | both bounds are cleared and the page shows the analytics of all entries |
| AnalyticsView.AnalyticsViewModel.SetLast30Days | PersonalJournalDesktopApp/ViewModels/AnalyticsViewModel.cs:217-222 | the window is today - 30 to today and the page shows its analytics |
| AnalyticsView.AnalyticsViewModel.SetLast90Days | PersonalJournalDesktopApp/ViewModels/AnalyticsViewModel.cs:225-230 | the window is today - 90 to today and the page shows its analytics |
| AnalyticsView.AnalyticsViewModel.SetThisYear | PersonalJournalDesktopApp/ViewModels/AnalyticsViewModel.cs:233-238 | the window is the first day of the year to today and the page shows its analytics |
| AnalyticsView.PresetWindowIsInclusive | PersonalJournalDesktopApp/ViewModels/AnalyticsViewModel.cs:219-221 | a preset window keeps exactly the entries dated from its first day to today, both included |
| Moods.Ordinal | PersonalJournalDesktopApp/Models/Mood.cs:9-14 | every category has a position in the enumeration Positive, Neutral, Negative |
| Moods.CategoriesEnumerated | PersonalJournalDesktopApp/Models/Mood.cs:9-14 | the enumeration has exactly the three categories, each once, in declaration order |
| Moods.NewMood | PersonalJournalDesktopApp/Models/Mood.cs:17-20 | a fresh mood has id 0, empty name and emoji, and the first category |
| Moods.LabelParts | PersonalJournalDesktopApp/ViewModels/AnalyticsViewModel.cs:102-104 | a mood's label is its emoji, one space, then its name |
| Moods.FindMood | PersonalJournalDesktopApp/Services/AnalyticsService.cs:171 | the lookup finds the first mood with the id, and nothing exactly when no mood has it |
| Moods.DefaultMoodIds | PersonalJournalDesktopApp/Models/Mood.cs:22-47 | 15 default moods with ids 1..15 in list order; ids 1-5 Positive, 6-10 Neutral, 11-15 Negative |
| Moods.FivePerCategory | PersonalJournalDesktopApp/Models/Mood.cs:27-45 | each category has exactly five default moods |
| Moods.DefaultMoodNamesDistinct | PersonalJournalDesktopApp/Models/Mood.cs:27-45 | the default mood names are pairwise distinct |
| Tags.NewTag | PersonalJournalDesktopApp/Models/Tag.cs:11-14 | a fresh tag has an empty name, is not predefined and has colour #ae866c |
| Tags.NumberTags | PersonalJournalDesktopApp/Models/Tag.cs:28-34 | the tag at position i has id i + 1 and the i-th name, is predefined and has the default colour |
| Tags.DefaultTagsShape | PersonalJournalDesktopApp/Models/Tag.cs:16-35 | 31 default tags with ids 1..31 in increasing order, all predefined with colour #ae866c |
| Tags.KeyIgnoresCase | PersonalJournalDesktopApp/Models/Tag.cs:20-25 | names equal up to case have the same length and the same first and third letters up to case |
| Tags.DefaultTagNamesDistinct | PersonalJournalDesktopApp/Models/Tag.cs:20-25 | no two default tag names are equal, even ignoring case |
| Categories.NewCategory | PersonalJournalDesktopApp/Models/Category.cs:11-14 | a fresh category has an empty name, icon 📁 and colour #ae866c |
| Categories.DefaultCategoriesShape | PersonalJournalDesktopApp/Models/Category.cs:16-27 | 6 default categories with ids 1..6 named Personal, Work, Health, Travel, Goals, Gratitude; names and colours pairwise distinct |
| Text.Utf16Length | PersonalJournalDesktopApp/ViewModels/SecurityViewModel.cs:47 | `string.Length` lies between the number of characters and twice it, and equals it exactly when no character is above U+FFFF |
| Text.FoldChar | PersonalJournalDesktopApp/ViewModels/EntryDetailViewModel.cs:204 | folding maps lower-case ASCII letters to upper case and keeps every other character |
| Text.EqualsIgnoreCaseIsEquivalence | PersonalJournalDesktopApp/ViewModels/EntryDetailViewModel.cs:204 | case-insensitive equality is reflexive, symmetric and transitive |
| Text.NatToString | PersonalJournalDesktopApp/Services/ExportSevice.cs:144 | the decimal text of a count is non-empty digits without a leading zero |
| Text.NatToStringRoundTrip | PersonalJournalDesktopApp/Services/ExportSevice.cs:144 | reading the decimal text back gives the count |
| SearchView.CriteriaMeaning | PersonalJournalDesktopApp/ViewModels/SearchViewModel.cs:96-106 | blank text becomes null and other text is passed unchanged; empty selections become null and others pass their ids in order; the category criterion is the selected id or null |
| SearchView.NoSelectionNoCriteria | PersonalJournalDesktopApp/ViewModels/SearchViewModel.cs:118-127 | cleared filters give all-null criteria |
| SearchView.SearchViewModel.Initialize | PersonalJournalDesktopApp/ViewModels/SearchViewModel.cs:71-87 | the catalogues are loaded, the filters kept, and the results are those of the current criteria |
| SearchView.SearchViewModel.Search | PersonalJournalDesktopApp/ViewModels/SearchViewModel.cs:90-115 | the results are the service's answer to the current criteria, the count is their number, and searching has finished |
| SearchView.SearchViewModel.ClearFilters | PersonalJournalDesktopApp/ViewModels/SearchViewModel.cs:118-128 | text, dates, selections and category are cleared, the catalogues kept, and the results are those for no criteria |
| SearchView.SearchViewModel.ToggleMood | PersonalJournalDesktopApp/ViewModels/SearchViewModel.cs:131-137 | the mood's membership flips, nothing else changes membership, and no duplicate appears |
| SearchView.SearchViewModel.ToggleTag | PersonalJournalDesktopApp/ViewModels/SearchViewModel.cs:140-146 | the tag's membership flips, nothing else changes membership, and no duplicate appears |
| SearchView.ToggleMoodTwice | PersonalJournalDesktopApp/ViewModels/SearchViewModel.cs:131-137 | toggling the same mood twice restores the selection's membership |
| Seqs.ToggleFlips | PersonalJournalDesktopApp/ViewModels/SearchViewModel.cs:131-137 | `Remove` if present, `Add` otherwise: flips membership and keeps the list duplicate-free |
| Seqs.ToggleTwice | PersonalJournalDesktopApp/ViewModels/EntryDetailViewModel.cs:184-194 | toggling twice restores membership, and the list itself when the item was absent |
| Seqs.SortBy | PersonalJournalDesktopApp/Services/AnalyticsService.cs:232 | `OrderBy` returns a permutation of its input, sorted by the key |
| Seqs.SortByStable | PersonalJournalDesktopApp/Services/AnalyticsService.cs:232 | elements with equal keys keep their input order |
| EntryDetail.AddTagKeepsCatalogue | PersonalJournalDesktopApp/ViewModels/EntryDetailViewModel.cs:203-226 | names stay distinct up to case; the matching tag ends up selected exactly once; the catalogue grows only when no name matched, and then by one new non-predefined tag with the default colour |
| EntryDetail.StoredTagSelectedTwice | PersonalJournalDesktopApp/ViewModels/EntryDetailViewModel.cs:205-211 | with reference comparison, adding by name a tag the stored entry already has selects a second object for it, and a save sends its id twice; with value comparison nothing changes |
| EntryDetail.StoredTagToggledTwice | PersonalJournalDesktopApp/ViewModels/EntryDetailViewModel.cs:184-194 | with reference comparison, toggling the catalogue's copy of a stored entry's tag adds a duplicate; with value comparison it removes the tag |
| EntryDetail.AddTagTwice | PersonalJournalDesktopApp/ViewModels/EntryDetailViewModel.cs:203-211 | adding the same name again, in any case, changes nothing |
| Seqs.Select | PersonalJournalDesktopApp/ViewModels/EntryDetailViewModel.cs:155 | LINQ `Select`: one result per element, in order, each the projection of its element (here the tag ids a save sends, in selection order) |
| EntryDetail.EntryDetailViewModel.Initialize | PersonalJournalDesktopApp/ViewModels/EntryDetailViewModel.cs:78-129 | catalogues and date are loaded; a stored entry fills the form, and each mood and the category are looked up by id when the entry has one; otherwise the form is a new entry with id 0 |
| EntryDetail.EntryDetailViewModel.LoadStored | PersonalJournalDesktopApp/ViewModels/EntryDetailViewModel.cs:97-122 | the form takes the stored entry's id, title, content, moods, category and tags |
| EntryDetail.EntryDetailViewModel.StartNew | PersonalJournalDesktopApp/ViewModels/EntryDetailViewModel.cs:123-128 | id 0, a new entry, and the new-entry title |
| EntryDetail.EntryDetailViewModel.SaveEntry | PersonalJournalDesktopApp/ViewModels/EntryDetailViewModel.cs:132-159 | nothing is saved iff the title is blank; otherwise the entry carries the form's id, date, title, content and selected ids (null when unselected) and the tag ids in selection order |
| EntryDetail.EntryDetailViewModel.DeleteEntry | PersonalJournalDesktopApp/ViewModels/EntryDetailViewModel.cs:162-175 | an entry is deleted iff the user confirms and the entry is stored, and then it is this entry |
| EntryDetail.EntryDetailViewModel.ToggleTag | PersonalJournalDesktopApp/ViewModels/EntryDetailViewModel.cs:184-194 | the tag's membership flips, nothing else changes membership, and no duplicate appears |
| EntryDetail.EntryDetailViewModel.AddNewTag | PersonalJournalDesktopApp/ViewModels/EntryDetailViewModel.cs:197-229 | a blank name changes nothing; otherwise the tag is added by name, a tag is created exactly when the catalogue grew, and the name box is cleared |
| Settings.SettingsStore.Get | PersonalJournalDesktopApp/Data/DatabaseService.cs:280-294 | the stored value of a key, or null when the key is missing |
| Settings.SettingsStore.Save | PersonalJournalDesktopApp/Data/DatabaseService.cs:296-311 | the key is inserted or overwritten and no other key changes |
| Security.OpensMeansSameDigest | PersonalJournalDesktopApp/Services/SecurityService.cs:41-49 | no stored digest admits no PIN; otherwise a PIN is valid exactly when its digest is the stored one |
| Security.EnableThenValidate | PersonalJournalDesktopApp/Services/SecurityService.cs:29-34 | after enabling with a PIN, protection is on, that PIN is valid, and exactly the PINs with the same digest are valid |
| Security.DisableKeepsPin | PersonalJournalDesktopApp/Services/SecurityService.cs:36-39 | disabling turns protection off, keeps the stored digest and changes no PIN's validity |
| Security.ChangePinThenValidate | PersonalJournalDesktopApp/Services/SecurityService.cs:51-55 | changing the PIN keeps the enabled flag and makes the new PIN valid |
| Security.OnlyPinAndFlagWritten | PersonalJournalDesktopApp/Services/SecurityService.cs:29-55 | no operation changes any key other than the PIN and the flag |
| Security.PasswordKeyUntouched | PersonalJournalDesktopApp/Services/SecurityService.cs:15 | the declared password key is never written |
| Security.SecurityService.IsSecurityEnabled | PersonalJournalDesktopApp/Services/SecurityService.cs:23-27 | true exactly when the stored flag reads "True"; a missing flag gives false |
| Security.SecurityService.EnableSecurity | PersonalJournalDesktopApp/Services/SecurityService.cs:29-34 | stores the PIN's digest and the flag "True" |
| Security.SecurityService.DisableSecurity | PersonalJournalDesktopApp/Services/SecurityService.cs:36-39 | stores the flag "False" only |
| Security.SecurityService.ValidatePin | PersonalJournalDesktopApp/Services/SecurityService.cs:41-49 | false for a missing or empty stored digest, else whether the PIN's digest matches |
| Security.SecurityService.ChangePin | PersonalJournalDesktopApp/Services/SecurityService.cs:51-55 | stores the new PIN's digest only |
| SecurityView.AcceptedPins | PersonalJournalDesktopApp/ViewModels/SecurityViewModel.cs:41-57 | a form is accepted exactly for a non-blank PIN whose `Length` (UTF-16 code units) is at least four and that the confirmation repeats, for both set-up and change |
| SecurityView.SurrogatePairsCountTwice | PersonalJournalDesktopApp/ViewModels/SecurityViewModel.cs:47 | two characters above U+FFFF have length four and are accepted; three ordinary digits are too short |
| SecurityView.LettersAccepted | PersonalJournalDesktopApp/ViewModels/SecurityViewModel.cs:47 | the length rule does not ask for digits, so "abcd" is accepted |
| SecurityView.SecurityViewModel.Initialize | PersonalJournalDesktopApp/ViewModels/SecurityViewModel.cs:33-36 | the page's flag is read from the store |
| SecurityView.SecurityViewModel.SetupPin | PersonalJournalDesktopApp/ViewModels/SecurityViewModel.cs:39-66 | a rejected form changes nothing; an accepted one enables protection with the PIN, sets the flag and clears both boxes |
| SecurityView.SecurityViewModel.DisableSecurity | PersonalJournalDesktopApp/ViewModels/SecurityViewModel.cs:69-83 | only a confirmed request disables protection and clears the flag |
| SecurityView.SecurityViewModel.ChangePin | PersonalJournalDesktopApp/ViewModels/SecurityViewModel.cs:86-112 | a rejected form changes nothing; an accepted one changes the PIN and clears both boxes, never touching the flag |
| SecurityView.LoginViewModel.Authenticate | PersonalJournalDesktopApp/ViewModels/SecurityViewModel.cs:132-161 | a blank PIN is refused without validation; otherwise access is granted iff the PIN is valid, a wrong PIN clears the box, and authenticating is over |
| Theme.ParseName | PersonalJournalDesktopApp/Services/ThemeService.cs:19 | a theme's name parses back to it and only the two names parse |
| Theme.SetThenGet | PersonalJournalDesktopApp/Services/ThemeService.cs:26-30 | after setting a theme it is the current theme |
| Theme.ToggleTwice | PersonalJournalDesktopApp/Services/ThemeService.cs:32-37 | toggling twice restores the theme, and the stored text too when it was a valid name; with nothing stored the theme is Light and a toggle gives Dark |
| Theme.ThemeService.GetCurrentTheme | PersonalJournalDesktopApp/Services/ThemeService.cs:16-24 | the stored theme if it parses, Light otherwise |
| Theme.ThemeService.SetTheme | PersonalJournalDesktopApp/Services/ThemeService.cs:26-30 | stores the theme's name under "AppTheme" and nothing else |
| Theme.ThemeService.ToggleTheme | PersonalJournalDesktopApp/Services/ThemeService.cs:32-37 | stores Dark when the current theme is Light and Light otherwise |
| Export.GenerateHtmlContent | PersonalJournalDesktopApp/Services/ExportSevice.cs:25-198 | the lines produced are the header, one block per entry newest first, and the footer |
| Export.AppendEntry | PersonalJournalDesktopApp/Services/ExportSevice.cs:150-191 | the lines appended for one entry are its block |
| Export.CollectMoods | PersonalJournalDesktopApp/Services/ExportSevice.cs:156-162 | the mood labels of the filled slots, in slot order |
| Export.PageOpening | PersonalJournalDesktopApp/Services/ExportSevice.cs:29-144 | the page opens with the doctype and `<html>`, carries the style sheet, the export date and the number of entries |
| Export.TotalEntriesReadsBack | PersonalJournalDesktopApp/Services/ExportSevice.cs:144 | the total line holds decimal digits that read back as the number of entries |
| Export.PageClosing | PersonalJournalDesktopApp/Services/ExportSevice.cs:194-195 | the page ends with `</body>` and `</html>` |
| Export.NewestFirstOrder | PersonalJournalDesktopApp/Services/ExportSevice.cs:148 | the blocks follow a permutation of the entries with non-increasing dates |
| Export.NewestFirstStable | PersonalJournalDesktopApp/Services/ExportSevice.cs:148 | entries of the same day keep their input order |
| Export.EntryBlockFrame | PersonalJournalDesktopApp/Services/ExportSevice.cs:150-153 | a block opens with the entry container, the formatted date, the encoded title and the encoded content, and ends by closing the container |
| Export.EntryBlockMoods | PersonalJournalDesktopApp/Services/ExportSevice.cs:156-172 | the moods container appears iff some mood slot is filled; the block's mood badges are exactly one per filled slot, in slot order (primary, secondary 1, secondary 2) |
| Export.MoodLabelsOfSlots | PersonalJournalDesktopApp/Services/ExportSevice.cs:156-162 | one label per filled slot, the primary first and the second secondary last, unencoded |
| Export.EntryBlockCategory | PersonalJournalDesktopApp/Services/ExportSevice.cs:175-178 | a category line with icon and name appears for a set category, and none otherwise |
| Export.EntryBlockTags | PersonalJournalDesktopApp/Services/ExportSevice.cs:181-189 | the tags container appears iff the entry has tags; the block's tag badges are exactly the entry's tags' encoded names, in list order |
| Export.EntryBlockOpensOnce | PersonalJournalDesktopApp/Services/ExportSevice.cs:150 | a block opens exactly one entry container |
| Export.OneBlockPerEntry | PersonalJournalDesktopApp/Services/ExportSevice.cs:148-192 | the blocks open as many entry containers as there are entries |
| Export.PageEntryCount | PersonalJournalDesktopApp/Services/ExportSevice.cs:29-195 | the whole page holds exactly one entry container per entry |

## Left out

- I/O and UI: the SQLite database behind the settings table, alerts, navigation, `Launcher`, the file written by `ExportToPdfAsync`, and `ApplyTheme`'s resource updates. The settings table is modelled as a map; the rest is out of scope.
- `async`/`await` and `Task.Run` are modelled as sequential code. Concurrency between page commands is not modelled.
- IEEE doubles: percentages, the average and bar heights are exact reals, so rounding is not modelled.
- C# 32-bit `int` overflow of counts and word totals is not modelled. Counts are unbounded naturals.
- The clock: `DateTime.Today` and `DateTime.Now` are parameters, and so is the first day of the current year. The calendar itself is not modelled.
- Time of day: entry dates are whole days, as the source's `Date.Date` treats them.
- The PIN hash is a parameter returning a 44-character text, in place of SHA-256 followed by Base64. Only equality of digests is used.
- HTML encoding, date formatting and the style sheet text of the export are parameters. The model fixes only where their results go.
- `Enum.TryParse<ThemeMode>(value, out theme)` is modelled as accepting exactly the names "Light" and "Dark" (case-sensitively, as this overload is). The other forms it accepts are not modelled: names with surrounding white space, numeric strings (including values such as "7" that name no theme, which `GetCurrentThemeAsync` would then return as a theme that is neither Light nor Dark), and comma-separated lists of names.
- `OrdinalIgnoreCase` folds ASCII letters only. Other scripts are compared unfolded.
- The search service's own filtering is not part of this model. It is a parameter that maps criteria to results.
- The word count and the tags of an entry come from code that is not part of this model (`JournalEntry.cs` does not declare them), so both are parameters.
- Object identity: `Contains` and `Remove` on view-model collections compare by reference. The view models compare tags and moods by value, which is what those comparisons evidently intend. Moods, categories and search selections are all taken from one loaded catalogue, so the two agree for them. For the entry editor's tags they do not; the reference behaviour is modelled separately under "## Findings".
- Export.GenerateHtmlContent: returns the lines of the document rather than one string with `AppendLine`'s line terminators between them; the header's fourteen appends are taken as one step.
- Export.Render: the style sheet's literal text in the source is the `css` parameter, so the rendered page is exact only up to that text.
- The colour palettes of `AppTheme.cs`/`JournalTheme.cs` are not part of this model.

## Findings

| source | as written | input that shows it | evidently intended | confidence | as-written member | corrected member |
|---|---|---|---|---|---|---|
| PersonalJournalDesktopApp/ViewModels/EntryDetailViewModel.cs:209 | `!SelectedTags.Contains(existingTag)` compares by reference. A stored entry's selected tags are loaded by a separate query (:120-121), so they are never the catalogue's objects (:91-92). | A stored entry tagged "Work"; type "work" in the add box. The catalogue's "Work" is appended although "Work" is already selected, and a save sends tag id 1 twice (:155). | A tag already attached to the entry is recognised as selected, by its record or id, and is not added again. | not executed; likely (the tag queries are not part of this model, but every query in `DatabaseService.cs` builds new objects) | EntryDetail.StoredTagSelectedTwice | EntryDetail.AddTagKeepsCatalogue |
| PersonalJournalDesktopApp/ViewModels/EntryDetailViewModel.cs:186 | `SelectedTags.Contains(tag)` compares by reference, so a tag of a stored entry is not found when the page passes the catalogue's object for it. | A stored entry tagged "Work"; toggle the catalogue's "Work". It is added a second time instead of being removed. | Toggling a selected tag removes it. | not executed; plausible (depends on the page passing catalogue objects, and the page markup is not part of this model) | EntryDetail.StoredTagToggledTwice | EntryDetail.EntryDetailViewModel.ToggleTag |
