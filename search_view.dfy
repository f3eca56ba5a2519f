/** The search page's view model: the filter selections, the criteria they
    are turned into, and the result list. */
module SearchView {
  import opened Wrappers
  import Seqs
  import Text
  import Moods
  import Tags
  import Categories
  import opened Journal

  /** The arguments of `SearchService.SearchAsync`; None stands for null. */
  datatype SearchCriteria = SearchCriteria(
    text: Option<string>,
    startDate: Option<Day>,
    endDate: Option<Day>,
    moodIds: Option<seq<int>>,
    tagIds: Option<seq<int>>,
    categoryId: Option<int>)

  /** Blank search text is sent as null, any other text as it is. */
  function NormalizeText(s: string): Option<string> {
    if Text.IsBlank(s) then None else Some(s)
  }

  /** `ids.Any() ? ids : null`. */
  function NonEmpty(ids: seq<int>): Option<seq<int>> {
    if |ids| == 0 then None else Some(ids)
  }

  /** `SelectedMoods.Select(m => m.Id)`. */
  function MoodIds(ms: seq<Moods.Mood>): seq<int> {
    Seqs.Select(ms, (m: Moods.Mood) => m.id)
  }

  /** `SelectedTags.Select(t => t.Id)`. */
  function TagIds(ts: seq<Tags.Tag>): seq<int> {
    Seqs.Select(ts, (t: Tags.Tag) => t.id)
  }

  /** `SelectedCategory?.Id`. */
  function CategoryId(c: Option<Categories.Category>): Option<int> {
    if c.Some? then Some(c.value.id) else None
  }

  /** The criteria a search built from these selections sends. */
  function CriteriaOf(text: string, startDate: Option<Day>, endDate: Option<Day>,
                      moods: seq<Moods.Mood>, tags: seq<Tags.Tag>, category: Option<Categories.Category>): SearchCriteria
  {
    SearchCriteria(NormalizeText(text), startDate, endDate, NonEmpty(MoodIds(moods)), NonEmpty(TagIds(tags)), CategoryId(category))
  }

  /** Each criterion is null exactly when its selection is blank or empty;
      otherwise it carries the text unchanged, the ids in selection order, or
      the selected category's id. */
  lemma {:induction false} CriteriaMeaning(text: string, startDate: Option<Day>, endDate: Option<Day>,
                          moods: seq<Moods.Mood>, tags: seq<Tags.Tag>, category: Option<Categories.Category>)
    ensures var c := CriteriaOf(text, startDate, endDate, moods, tags, category);
      && (c.text.None? <==> forall i :: 0 <= i < |text| ==> Text.IsWhiteSpace(text[i]))
      && (c.text.Some? ==> c.text.value == text)
      && c.startDate == startDate && c.endDate == endDate
      && (c.moodIds.None? <==> moods == [])
      && (c.moodIds.Some? ==> |c.moodIds.value| == |moods| && forall i :: 0 <= i < |moods| ==> c.moodIds.value[i] == moods[i].id)
      && (c.tagIds.None? <==> tags == [])
      && (c.tagIds.Some? ==> |c.tagIds.value| == |tags| && forall i :: 0 <= i < |tags| ==> c.tagIds.value[i] == tags[i].id)
      && (c.categoryId.None? <==> category.None?)
      && (c.categoryId.Some? ==> c.categoryId.value == category.value.id)
  {
  }

  /** With nothing selected, a search sends no criterion at all. */
  lemma NoSelectionNoCriteria()
    ensures CriteriaOf("", None, None, [], [], None) == SearchCriteria(None, None, None, None, None, None)
  {
  }

  class SearchViewModel {
    var searchText: string
    var startDate: Option<Day>
    var endDate: Option<Day>
    var searchResults: seq<Entry>
    var allMoods: seq<Moods.Mood>
    var selectedMoods: seq<Moods.Mood>
    var allTags: seq<Tags.Tag>
    var selectedTags: seq<Tags.Tag>
    var allCategories: seq<Categories.Category>
    var selectedCategory: Option<Categories.Category>
    var isSearching: bool
    var resultCount: nat

    constructor ()
      ensures searchText == "" && startDate.None? && endDate.None?
      ensures searchResults == [] && allMoods == [] && selectedMoods == [] && allTags == [] && selectedTags == []
      ensures allCategories == [] && selectedCategory.None? && !isSearching && resultCount == 0
    {
      searchText := "";
      startDate, endDate := None, None;
      searchResults := [];
      allMoods, selectedMoods := [], [];
      allTags, selectedTags := [], [];
      allCategories := [];
      selectedCategory := None;
      isSearching := false;
      resultCount := 0;
    }

    /** The criteria the current selections produce. */
    function Criteria(): SearchCriteria
      reads this
    {
      CriteriaOf(searchText, startDate, endDate, selectedMoods, selectedTags, selectedCategory)
    }

    /** `InitializeAsync`: the catalogues, then a search with the current
        selections. */
    method Initialize(moods: seq<Moods.Mood>, tags: seq<Tags.Tag>, categories: seq<Categories.Category>,
                      search: SearchCriteria -> seq<Entry>)
      modifies this
      ensures allMoods == moods && allTags == tags && allCategories == categories
      ensures searchText == old(searchText) && startDate == old(startDate) && endDate == old(endDate)
      ensures selectedMoods == old(selectedMoods) && selectedTags == old(selectedTags)
      ensures selectedCategory == old(selectedCategory)
      ensures searchResults == search(Criteria()) && resultCount == |searchResults| && !isSearching
    {
      allMoods := moods;
      allTags := tags;
      allCategories := categories;
      Search(search);
    }

    /** `SearchAsync`: the service's results for the current criteria, in
        the order returned; the selections are left alone. */
    method Search(search: SearchCriteria -> seq<Entry>)
      modifies this`isSearching, this`searchResults, this`resultCount
      ensures searchResults == search(Criteria())
      ensures resultCount == |searchResults|
      ensures !isSearching
    {
      isSearching := true;
      var moodIds := MoodIds(selectedMoods);
      var tagIds := TagIds(selectedTags);
      var text := if Text.IsBlank(searchText) then None else Some(searchText);
      var results := search(SearchCriteria(text, startDate, endDate,
                                           if |moodIds| > 0 then Some(moodIds) else None,
                                           if |tagIds| > 0 then Some(tagIds) else None,
                                           if selectedCategory.Some? then Some(selectedCategory.value.id) else None));
      searchResults := results;
      resultCount := |results|;
      isSearching := false;
    }

    /** `ClearFiltersAsync`: every selection is reset, then a search runs
        with no criteria. */
    method ClearFilters(search: SearchCriteria -> seq<Entry>)
      modifies this`searchText, this`startDate, this`endDate
      modifies this`selectedMoods, this`selectedTags, this`selectedCategory
      modifies this`isSearching, this`searchResults, this`resultCount
      ensures searchText == "" && startDate.None? && endDate.None?
      ensures selectedMoods == [] && selectedTags == [] && selectedCategory.None?
      ensures allMoods == old(allMoods) && allTags == old(allTags) && allCategories == old(allCategories)
      ensures searchResults == search(SearchCriteria(None, None, None, None, None, None))
      ensures resultCount == |searchResults| && !isSearching
    {
      ResetSelections();
      Search(search);
      NoSelectionNoCriteria();
    }

    /** The six assignments that clear the selections. */
    method ResetSelections()
      modifies this`searchText, this`startDate, this`endDate
      modifies this`selectedMoods, this`selectedTags, this`selectedCategory
      ensures searchText == "" && startDate.None? && endDate.None?
      ensures selectedMoods == [] && selectedTags == [] && selectedCategory.None?
    {
      searchText := "";
      startDate := None;
      endDate := None;
      selectedMoods := [];
      selectedTags := [];
      selectedCategory := None;
    }

    /** `ToggleMood`: a selected mood is removed, any other is appended;
        its membership flips, no other mood's changes, and a selection
        without duplicates stays without them. */
    method ToggleMood(mood: Moods.Mood)
      modifies this`selectedMoods
      ensures selectedMoods == Seqs.Toggle(old(selectedMoods), mood)
      ensures Seqs.NoDup(old(selectedMoods)) ==>
                && Seqs.NoDup(selectedMoods)
                && (mood in selectedMoods <==> mood !in old(selectedMoods))
                && forall m :: m != mood ==> (m in selectedMoods <==> m in old(selectedMoods))
    {
      if Seqs.NoDup(selectedMoods) {
        Seqs.ToggleFlips(selectedMoods, mood);
      }
      if mood in selectedMoods {
        selectedMoods := Seqs.RemoveFirst(selectedMoods, mood);
      } else {
        selectedMoods := selectedMoods + [mood];
      }
    }

    /** `ToggleTag`, the same flip over the tag selection. */
    method ToggleTag(tag: Tags.Tag)
      modifies this`selectedTags
      ensures selectedTags == Seqs.Toggle(old(selectedTags), tag)
      ensures Seqs.NoDup(old(selectedTags)) ==>
                && Seqs.NoDup(selectedTags)
                && (tag in selectedTags <==> tag !in old(selectedTags))
                && forall t :: t != tag ==> (t in selectedTags <==> t in old(selectedTags))
    {
      if Seqs.NoDup(selectedTags) {
        Seqs.ToggleFlips(selectedTags, tag);
      }
      if tag in selectedTags {
        selectedTags := Seqs.RemoveFirst(selectedTags, tag);
      } else {
        selectedTags := selectedTags + [tag];
      }
    }
  }

  /** Toggling the same mood twice restores which moods are selected. */
  lemma ToggleMoodTwice(selected: seq<Moods.Mood>, mood: Moods.Mood)
    requires Seqs.NoDup(selected)
    ensures forall m :: m in Seqs.Toggle(Seqs.Toggle(selected, mood), mood) <==> m in selected
  {
    Seqs.ToggleTwice(selected, mood);
  }
}
