/** The entry editor's view model: loading the entry of a day into the form,
    building the entry a save sends, the delete guard, and the tag
    selection with its "add a tag by name" box. */
module EntryDetail {
  import opened Wrappers
  import Seqs
  import Text
  import Moods
  import Tags
  import Categories
  import opened Journal

  /** What a save hands to the services: the entry row and the ids of the
      selected tags, in selection order. */
  datatype SaveRequest = SaveRequest(entry: Entry, tagIds: seq<int>)

  /** `t => t.Name.Equals(name, StringComparison.OrdinalIgnoreCase)`. */
  function SameName(name: string): Tags.Tag -> bool {
    (t: Tags.Tag) => Text.EqualsIgnoreCase(t.name, name)
  }

  function CategoryWithId(id: int): Categories.Category -> bool {
    (c: Categories.Category) => c.id == id
  }

  /** No two tags of the catalogue have names equal up to case. */
  predicate DistinctNames(tags: seq<Tags.Tag>) {
    forall i, j :: 0 <= i < j < |tags| ==> !Text.EqualsIgnoreCase(tags[i].name, tags[j].name)
  }

  /** The selection holds catalogue tags, each at most once. */
  predicate SelectionOf(all: seq<Tags.Tag>, selected: seq<Tags.Tag>) {
    Seqs.NoDup(selected) && forall t :: t in selected ==> t in all
  }

  /** The catalogue and selection after adding the non-blank `name`: a tag
      whose name matches up to case is selected if it is not already;
      otherwise a new tag with `createdId` joins both lists. */
  function AddTag(all: seq<Tags.Tag>, selected: seq<Tags.Tag>, name: string, createdId: int): (seq<Tags.Tag>, seq<Tags.Tag>) {
    match Seqs.FirstWhere(all, SameName(name))
    case Some(existing) => (all, if existing in selected then selected else selected + [existing])
    case None =>
      var t := Tags.Tag(createdId, name, false, Tags.DefaultColor);
      (all + [t], selected + [t])
  }

  /** Adding a tag keeps the catalogue's names distinct up to case and the
      selection a duplicate-free part of the catalogue; afterwards exactly
      one catalogue tag matches the name and it is selected exactly once.
      The catalogue grows only when no tag matched. */
  lemma AddTagKeepsCatalogue(all: seq<Tags.Tag>, selected: seq<Tags.Tag>, name: string, createdId: int)
    requires DistinctNames(all) && SelectionOf(all, selected)
    ensures var (all', selected') := AddTag(all, selected, name, createdId);
      && DistinctNames(all') && SelectionOf(all', selected')
      && (exists t :: t in all' && Text.EqualsIgnoreCase(t.name, name) && multiset(selected')[t] == 1)
      && (all' == all <==> exists i :: 0 <= i < |all| && Text.EqualsIgnoreCase(all[i].name, name))
      && (all' != all ==> all' == all + [Tags.Tag(createdId, name, false, Tags.DefaultColor)])
  {
    var (all', selected') := AddTag(all, selected, name, createdId);
    match Seqs.FirstWhere(all, SameName(name))
    case Some(existing) =>
      assert SameName(name)(existing);
      Seqs.NoDupMultiplicity(selected', existing);
      if existing !in selected {
        forall i, j | 0 <= i < j < |selected'| ensures selected'[i] != selected'[j] {
          if j == |selected| {
            assert selected'[i] == selected[i];
          }
        }
      }
    case None =>
      var t := Tags.Tag(createdId, name, false, Tags.DefaultColor);
      assert forall i :: 0 <= i < |all| ==> !SameName(name)(all[i]);
      Text.EqualsIgnoreCaseIsEquivalence(name, name, name);
      assert SameName(name)(t);
      assert forall i :: 0 <= i < |all| ==> all[i] != t;
      forall i, j | 0 <= i < j < |all'| ensures !Text.EqualsIgnoreCase(all'[i].name, all'[j].name) {
        if j == |all| {
          assert !SameName(name)(all[i]);
        }
      }
      assert t !in selected;
      forall i, j | 0 <= i < j < |selected'| ensures selected'[i] != selected'[j] {
        if j == |selected| {
          assert selected'[i] == selected[i];
        }
      }
      Seqs.NoDupMultiplicity(selected', t);
      assert all' != all by {
        assert |all'| == |all| + 1;
      }
  }

  /** Adding a name a second time, in any letter case, changes nothing. */
  lemma AddTagTwice(all: seq<Tags.Tag>, selected: seq<Tags.Tag>, name: string, again: string, createdId: int, createdAgain: int)
    requires Text.EqualsIgnoreCase(name, again)
    ensures var (all', selected') := AddTag(all, selected, name, createdId);
      AddTag(all', selected', again, createdAgain) == (all', selected')
  {
    var (all', selected') := AddTag(all, selected, name, createdId);
    forall s: string ensures Text.EqualsIgnoreCase(s, name) <==> Text.EqualsIgnoreCase(s, again) {
      Text.EqualsIgnoreCaseIsEquivalence(s, name, again);
      Text.EqualsIgnoreCaseIsEquivalence(s, again, name);
      Text.EqualsIgnoreCaseIsEquivalence(name, again, name);
    }
    match Seqs.FirstWhere(all, SameName(name))
    case Some(existing) =>
      var k :| 0 <= k < |all| && all[k] == existing && SameName(name)(existing)
               && forall j :: 0 <= j < k ==> !SameName(name)(all[j]);
      assert SameName(again)(existing);
      var r := Seqs.FirstWhere(all, SameName(again));
      assert r.Some? by {
        assert SameName(again)(all[k]);
      }
      var k' :| 0 <= k' < |all| && all[k'] == r.value && SameName(again)(r.value)
                && forall j :: 0 <= j < k' ==> !SameName(again)(all[j]);
      assert SameName(name)(all[k']);
      assert SameName(again)(all[k]);
      assert k == k';
    case None =>
      var t := Tags.Tag(createdId, name, false, Tags.DefaultColor);
      Text.EqualsIgnoreCaseIsEquivalence(name, name, name);
      assert SameName(again)(t);
      forall j | 0 <= j < |all| ensures !SameName(again)(all'[j]) {
        assert !SameName(name)(all[j]);
      }
      var r := Seqs.FirstWhere(all', SameName(again));
      assert SameName(again)(all'[|all|]);
      var k' :| 0 <= k' < |all'| && all'[k'] == r.value && SameName(again)(r.value)
                && forall j :: 0 <= j < k' ==> !SameName(again)(all'[j]);
      assert k' == |all|;
  }

  /** A tag object as the page holds it. `Tag` does not override `Equals`,
      so `Contains` and `Remove` compare objects by reference; `ref` stands
      for that identity, and one `ref` always carries the same record. Each
      database read builds new objects, so the tags loaded for a stored entry
      and the catalogue's tags are different objects with equal records. */
  datatype TagObject = TagObject(ref: nat, tag: Tags.Tag)

  function ObjectNamed(name: string): TagObject -> bool {
    (o: TagObject) => Text.EqualsIgnoreCase(o.tag.name, name)
  }

  function ObjectTagIds(os: seq<TagObject>): seq<int> {
    Seqs.Select(os, (o: TagObject) => o.tag.id)
  }

  /** `AddNewTagAsync` as written, over tag objects: the matching catalogue
      object is appended unless that same object is already selected;
      otherwise a new object `created` with `createdId` joins both lists. */
  function AddTagAsWritten(all: seq<TagObject>, selected: seq<TagObject>, name: string,
                           createdId: int, created: nat): (seq<TagObject>, seq<TagObject>) {
    match Seqs.FirstWhere(all, ObjectNamed(name))
    case Some(existing) => (all, if existing in selected then selected else selected + [existing])
    case None =>
      var t := TagObject(created, Tags.Tag(createdId, name, false, Tags.DefaultColor));
      (all + [t], selected + [t])
  }

  /** `ToggleTag` as written, over tag objects. */
  function ToggleTagAsWritten(selected: seq<TagObject>, t: TagObject): seq<TagObject> {
    Seqs.Toggle(selected, t)
  }

  const Work: Tags.Tag := Tags.Tag(1, "Work", true, Tags.DefaultColor)

  /** Opening a stored entry tagged "Work" and typing "work" in the add box
      selects the catalogue's "Work" a second time, so a save sends tag id 1
      twice; the value comparison of `AddTag` leaves the selection alone. */
  lemma StoredTagSelectedTwice()
    ensures var catalogue := [TagObject(0, Work)];
      var loaded := [TagObject(1, Work)];
      ObjectTagIds(AddTagAsWritten(catalogue, loaded, "work", 32, 2).1) == [1, 1]
    ensures AddTag([Work], [Work], "work", 32) == ([Work], [Work]) && TagIds([Work]) == [1]
  {
    var catalogue := [TagObject(0, Work)];
    assert ObjectNamed("work")(catalogue[0]);
    assert Seqs.FirstWhere(catalogue, ObjectNamed("work")) == Some(TagObject(0, Work));
    var selected := [TagObject(1, Work), TagObject(0, Work)];
    assert ObjectTagIds(selected)[0] == 1 && ObjectTagIds(selected)[1] == 1;
    assert SameName("work")([Work][0]);
  }

  /** Toggling the catalogue's "Work" on a stored entry tagged "Work" adds it
      instead of removing it; the value comparison removes it. */
  lemma StoredTagToggledTwice()
    ensures ObjectTagIds(ToggleTagAsWritten([TagObject(1, Work)], TagObject(0, Work))) == [1, 1]
    ensures Seqs.Toggle([Work], Work) == []
  {
    var selected := [TagObject(1, Work), TagObject(0, Work)];
    assert ObjectTagIds(selected)[0] == 1 && ObjectTagIds(selected)[1] == 1;
    assert Seqs.RemoveFirst([Work], Work) == [];
  }

  /** The tag ids a save sends, in selection order. */
  function TagIds(ts: seq<Tags.Tag>): seq<int> {
    Seqs.Select(ts, (t: Tags.Tag) => t.id)
  }

  /** `SelectedX?.Id`. */
  function MoodId(m: Option<Moods.Mood>): Option<int> {
    if m.Some? then Some(m.value.id) else None
  }

  /** A mood slot of the form after loading: the catalogue mood with the
      stored id when the slot holds one, the previous selection otherwise. */
  function LoadedMood(moods: seq<Moods.Mood>, slot: Option<int>, previous: Option<Moods.Mood>): Option<Moods.Mood> {
    if slot.Some? then Moods.FindMood(moods, slot.value) else previous
  }

  /** The category of the form after loading, in the same way. */
  function LoadedCategory(categories: seq<Categories.Category>, slot: Option<int>, previous: Option<Categories.Category>): Option<Categories.Category> {
    if slot.Some? then Seqs.FirstWhere(categories, CategoryWithId(slot.value)) else previous
  }

  /** The page title after loading, from the formatted day. */
  function PageTitle(isNew: bool, dateText: string): string {
    (if isNew then "New Entry - " else "Edit Entry - ") + dateText
  }

  class EntryDetailViewModel {
    var title: string
    var content: string
    var selectedDate: Day
    var selectedPrimaryMood: Option<Moods.Mood>
    var selectedSecondaryMood1: Option<Moods.Mood>
    var selectedSecondaryMood2: Option<Moods.Mood>
    var selectedCategory: Option<Categories.Category>
    var allMoods: seq<Moods.Mood>
    var allCategories: seq<Categories.Category>
    var allTags: seq<Tags.Tag>
    var selectedTags: seq<Tags.Tag>
    var newTagName: string
    var isNewEntry: bool
    var pageTitle: string
    var entryId: int

    /** A fresh editor; `selectedDate` starts at the default date, day 0. */
    constructor ()
      ensures title == "" && content == "" && selectedDate == 0
      ensures selectedPrimaryMood.None? && selectedSecondaryMood1.None? && selectedSecondaryMood2.None?
      ensures selectedCategory.None? && allMoods == [] && allCategories == [] && allTags == [] && selectedTags == []
      ensures newTagName == "" && !isNewEntry && pageTitle == "New Entry" && entryId == 0
    {
      title, content := "", "";
      selectedDate := 0;
      selectedPrimaryMood, selectedSecondaryMood1, selectedSecondaryMood2 := None, None, None;
      selectedCategory := None;
      allMoods, allCategories, allTags, selectedTags := [], [], [], [];
      newTagName := "";
      isNewEntry := false;
      pageTitle := "New Entry";
      entryId := 0;
    }

    /** `InitializeAsync(date)`: the catalogues are loaded; when `stored`,
        the entry saved for that day, exists its id, text, moods, category
        and tags fill the form, otherwise the form is marked new. A mood or
        category slot that the stored entry leaves empty, and every text and
        selection field of a new entry, keep their previous values.
        `dateText` is the day formatted for the page title, and
        `tagsOfEntry` gives the tags saved for an entry id. */
    method Initialize(date: Day, moods: seq<Moods.Mood>, categories: seq<Categories.Category>, tags: seq<Tags.Tag>,
                      stored: Option<Entry>, tagsOfEntry: int -> seq<Tags.Tag>, dateText: string)
      modifies this`selectedDate, this`allMoods, this`allCategories, this`allTags
      modifies this`entryId, this`title, this`content, this`isNewEntry, this`pageTitle
      modifies this`selectedPrimaryMood, this`selectedSecondaryMood1, this`selectedSecondaryMood2
      modifies this`selectedCategory, this`selectedTags
      ensures selectedDate == date && allMoods == moods && allCategories == categories && allTags == tags
      ensures newTagName == old(newTagName)
      ensures stored.None? ==>
        && entryId == 0 && isNewEntry && pageTitle == PageTitle(true, dateText)
        && title == old(title) && content == old(content)
        && selectedPrimaryMood == old(selectedPrimaryMood) && selectedSecondaryMood1 == old(selectedSecondaryMood1)
        && selectedSecondaryMood2 == old(selectedSecondaryMood2) && selectedCategory == old(selectedCategory)
        && selectedTags == old(selectedTags)
      ensures stored.Some? ==>
        var e := stored.value;
        && entryId == e.id && !isNewEntry && pageTitle == PageTitle(false, dateText)
        && title == e.title && content == e.content
        && selectedPrimaryMood == LoadedMood(moods, e.primaryMoodId, old(selectedPrimaryMood))
        && selectedSecondaryMood1 == LoadedMood(moods, e.secondaryMood1Id, old(selectedSecondaryMood1))
        && selectedSecondaryMood2 == LoadedMood(moods, e.secondaryMood2Id, old(selectedSecondaryMood2))
        && selectedCategory == LoadedCategory(categories, e.categoryId, old(selectedCategory))
        && selectedTags == tagsOfEntry(e.id)
    {
      selectedDate := date;
      allMoods := moods;
      allCategories := categories;
      allTags := tags;
      if stored.Some? {
        LoadStored(stored.value, moods, categories, tagsOfEntry, dateText);
      } else {
        StartNew(dateText);
      }
    }

    /** The half of `InitializeAsync` for a day with no entry yet. */
    method StartNew(dateText: string)
      modifies this`entryId, this`isNewEntry, this`pageTitle
      ensures entryId == 0 && isNewEntry && pageTitle == PageTitle(true, dateText)
    {
      entryId := 0;
      isNewEntry := true;
      pageTitle := PageTitle(true, dateText);
    }

    /** The half of `InitializeAsync` that fills the form from a stored entry. */
    method LoadStored(e: Entry, moods: seq<Moods.Mood>, categories: seq<Categories.Category>,
                      tagsOfEntry: int -> seq<Tags.Tag>, dateText: string)
      modifies this`entryId, this`title, this`content, this`isNewEntry, this`pageTitle
      modifies this`selectedPrimaryMood, this`selectedSecondaryMood1, this`selectedSecondaryMood2
      modifies this`selectedCategory, this`selectedTags
      ensures entryId == e.id && !isNewEntry && pageTitle == PageTitle(false, dateText)
      ensures title == e.title && content == e.content
      ensures selectedPrimaryMood == LoadedMood(moods, e.primaryMoodId, old(selectedPrimaryMood))
      ensures selectedSecondaryMood1 == LoadedMood(moods, e.secondaryMood1Id, old(selectedSecondaryMood1))
      ensures selectedSecondaryMood2 == LoadedMood(moods, e.secondaryMood2Id, old(selectedSecondaryMood2))
      ensures selectedCategory == LoadedCategory(categories, e.categoryId, old(selectedCategory))
      ensures selectedTags == tagsOfEntry(e.id)
    {
      entryId := e.id;
      title := e.title;
      content := e.content;
      isNewEntry := false;
      pageTitle := PageTitle(false, dateText);
      selectedPrimaryMood := LoadedMood(moods, e.primaryMoodId, selectedPrimaryMood);
      selectedSecondaryMood1 := LoadedMood(moods, e.secondaryMood1Id, selectedSecondaryMood1);
      selectedSecondaryMood2 := LoadedMood(moods, e.secondaryMood2Id, selectedSecondaryMood2);
      selectedCategory := LoadedCategory(categories, e.categoryId, selectedCategory);
      selectedTags := tagsOfEntry(e.id);
    }

    /** `SaveEntryAsync`: nothing is saved for a blank title; otherwise the
        entry row carries the editor's id, day, text and the ids of the
        selected moods and category (None where nothing is selected), and
        the tag ids follow the selection order. */
    method SaveEntry() returns (request: Option<SaveRequest>)
      ensures request.None? <==> Text.IsBlank(title)
      ensures request.Some? ==>
        var e := request.value.entry;
        && e.id == entryId && e.date == selectedDate && e.title == title && e.content == content
        && (e.primaryMoodId.None? <==> selectedPrimaryMood.None?)
        && (e.primaryMoodId.Some? ==> e.primaryMoodId.value == selectedPrimaryMood.value.id)
        && (e.secondaryMood1Id.None? <==> selectedSecondaryMood1.None?)
        && (e.secondaryMood1Id.Some? ==> e.secondaryMood1Id.value == selectedSecondaryMood1.value.id)
        && (e.secondaryMood2Id.None? <==> selectedSecondaryMood2.None?)
        && (e.secondaryMood2Id.Some? ==> e.secondaryMood2Id.value == selectedSecondaryMood2.value.id)
        && (e.categoryId.None? <==> selectedCategory.None?)
        && (e.categoryId.Some? ==> e.categoryId.value == selectedCategory.value.id)
        && |request.value.tagIds| == |selectedTags|
        && forall i :: 0 <= i < |selectedTags| ==> request.value.tagIds[i] == selectedTags[i].id
    {
      if Text.IsBlank(title) {
        return None;
      }
      var entry := Entry(entryId, selectedDate, title, content,
                         MoodId(selectedPrimaryMood), MoodId(selectedSecondaryMood1), MoodId(selectedSecondaryMood2),
                         if selectedCategory.Some? then Some(selectedCategory.value.id) else None,
                         None, None, None, None, []);
      request := Some(SaveRequest(entry, TagIds(selectedTags)));
    }

    /** `DeleteEntryAsync`: the id to delete, only when the user confirmed
        and the entry has been saved before. */
    method DeleteEntry(confirm: bool) returns (deleted: Option<int>)
      ensures deleted.Some? <==> confirm && entryId > 0
      ensures deleted.Some? ==> deleted.value == entryId
    {
      if confirm && entryId > 0 {
        deleted := Some(entryId);
      } else {
        deleted := None;
      }
    }

    /** `ToggleTag`: a selected tag is removed, any other is appended. */
    method ToggleTag(tag: Tags.Tag)
      modifies this`selectedTags
      ensures selectedTags == Seqs.Toggle(old(selectedTags), tag)
      ensures Seqs.NoDup(old(selectedTags)) ==>
                && Seqs.NoDup(selectedTags)
                && (tag in selectedTags <==> tag !in old(selectedTags))
                && forall t :: t != tag ==> (t in selectedTags <==> t in old(selectedTags))
    {
      if Seqs.NoDup(selectedTags) {
        Seqs.ToggleFlips(selectedTags, tag);
      }
      if tag in selectedTags {
        selectedTags := Seqs.RemoveFirst(selectedTags, tag);
      } else {
        selectedTags := selectedTags + [tag];
      }
    }

    /** `AddNewTagAsync`: a blank name changes nothing; otherwise the tag
        lists become `AddTag`'s, the name box is cleared, and `created` is
        the name a new tag was created with (None when one already matched).
        `createdId` is the id the database gives a new tag. */
    method AddNewTag(createdId: int) returns (created: Option<string>)
      modifies this`allTags, this`selectedTags, this`newTagName
      ensures Text.IsBlank(old(newTagName)) ==>
                allTags == old(allTags) && selectedTags == old(selectedTags) && newTagName == old(newTagName) && created.None?
      ensures !Text.IsBlank(old(newTagName)) ==>
                && (allTags, selectedTags) == AddTag(old(allTags), old(selectedTags), old(newTagName), createdId)
                && newTagName == ""
                && (created.Some? <==> allTags != old(allTags))
                && (created.Some? ==> created.value == old(newTagName))
    {
      if Text.IsBlank(newTagName) {
        return None;
      }
      var name := newTagName;
      var existing := Seqs.FirstWhere(allTags, SameName(name));
      if existing.Some? {
        if existing.value !in selectedTags {
          selectedTags := selectedTags + [existing.value];
        }
        created := None;
      } else {
        var newTag := Tags.Tag(createdId, name, false, Tags.DefaultColor);
        allTags := allTags + [newTag];
        selectedTags := selectedTags + [newTag];
        created := Some(name);
      }
      newTagName := "";
    }
  }
}
