/** The HTML export: a journal printed as one HTML page, line by line, with
    a header, one block per entry (newest first) and the closing tags. The
    page is assembled as a list of line kinds; `Render` gives each its text. */
module Export {
  import Seqs
  import Text
  import Moods
  import Tags
  import opened Journal

  /** The lines the export appends, by kind. */
  datatype Line =
    | Doctype | HtmlOpen | HeadOpen | MetaCharset | StyleOpen | StyleSheet(css: string) | StyleClose
    | HeadClose | BodyOpen | HeaderOpen | Heading | ExportedOn(day: string) | TotalEntries(count: nat)
    | DivClose | EntryOpen | EntryDate(day: string) | EntryTitle(title: string)
    | EntryContent(content: string) | MoodsOpen | MoodBadge(text: string)
    | CategoryBadge(icon: string, name: string) | TagsOpen | TagBadge(name: string)
    | BodyClose | HtmlClose

  /** The text `AppendLine` writes for a line, without the line break. */
  function Render(l: Line): string {
    match l
    case Doctype => "<!DOCTYPE html>"
    case HtmlOpen => "<html>"
    case HeadOpen => "<head>"
    case MetaCharset => "<meta charset='utf-8'>"
    case StyleOpen => "<style>"
    case StyleSheet(css) => css
    case StyleClose => "</style>"
    case HeadClose => "</head>"
    case BodyOpen => "<body>"
    case HeaderOpen => "<div class='header'>"
    case Heading => "<h1>My Journal</h1>"
    case ExportedOn(day) => "<p>Exported on " + day + "</p>"
    case TotalEntries(n) => "<p>Total Entries: " + Text.NatToString(n) + "</p>"
    case DivClose => "</div>"
    case EntryOpen => "<div class='entry'>"
    case EntryDate(day) => "<div class='entry-date'>" + day + "</div>"
    case EntryTitle(t) => "<div class='entry-title'>" + t + "</div>"
    case EntryContent(c) => "<div class='entry-content'>" + c + "</div>"
    case MoodsOpen => "<div class='entry-moods'>"
    case MoodBadge(text) => "<span class='mood-badge'>" + text + "</span>"
    case CategoryBadge(icon, name) => "<div class='category'>" + icon + " " + name + "</div>"
    case TagsOpen => "<div class='tags'>"
    case TagBadge(name) => "<span class='tag'>" + name + "</span>"
    case BodyClose => "</body>"
    case HtmlClose => "</html>"
  }

  /** The page's text, one string per line. */
  function RenderAll(lines: seq<Line>): seq<string> {
    seq(|lines|, i requires 0 <= i < |lines| => Render(lines[i]))
  }

  /** The lines before the entries. `css` is the page's style block and
      `exportedOn` the export day as printed. */
  function Header(count: nat, css: string, exportedOn: string): seq<Line> {
    [Doctype, HtmlOpen, HeadOpen, MetaCharset, StyleOpen, StyleSheet(css), StyleClose, HeadClose, BodyOpen,
     HeaderOpen, Heading, ExportedOn(exportedOn), TotalEntries(count), DivClose]
  }

  const Footer: seq<Line> := [BodyClose, HtmlClose]

  /** The badge labels of an entry's moods, in slot order, skipping empty slots. */
  function MoodLabels(e: Entry): seq<string> {
    (if e.primaryMood.Some? then [Moods.Label(e.primaryMood.value)] else [])
    + (if e.secondaryMood1.Some? then [Moods.Label(e.secondaryMood1.value)] else [])
    + (if e.secondaryMood2.Some? then [Moods.Label(e.secondaryMood2.value)] else [])
  }

  function MoodBadges(labels: seq<string>): seq<Line> {
    seq(|labels|, i requires 0 <= i < |labels| => MoodBadge(labels[i]))
  }

  function TagBadges(tags: seq<Tags.Tag>, encode: string -> string): seq<Line> {
    seq(|tags|, i requires 0 <= i < |tags| => TagBadge(encode(tags[i].name)))
  }

  /** The four lines every entry block opens with. */
  function EntryHead(e: Entry, encode: string -> string, longDate: Day -> string): seq<Line> {
    [EntryOpen, EntryDate(longDate(e.date)), EntryTitle(encode(e.title)), EntryContent(encode(e.content))]
  }

  function MoodSection(e: Entry): seq<Line> {
    var labels := MoodLabels(e);
    if |labels| > 0 then [MoodsOpen] + MoodBadges(labels) + [DivClose] else []
  }

  function CategorySection(e: Entry): seq<Line> {
    if e.category.Some? then [CategoryBadge(e.category.value.icon, e.category.value.name)] else []
  }

  function TagSection(e: Entry, encode: string -> string): seq<Line> {
    if |e.tags| > 0 then [TagsOpen] + TagBadges(e.tags, encode) + [DivClose] else []
  }

  /** One entry's block. */
  function EntryBlock(e: Entry, encode: string -> string, longDate: Day -> string): seq<Line> {
    EntryHead(e, encode, longDate) + MoodSection(e) + CategorySection(e) + TagSection(e, encode) + [DivClose]
  }

  /** The blocks of `es`, one after another. */
  function Blocks(es: seq<Entry>, encode: string -> string, longDate: Day -> string): seq<Line> {
    if |es| == 0 then [] else Blocks(es[..|es| - 1], encode, longDate) + EntryBlock(es[|es| - 1], encode, longDate)
  }

  function ByDateDescending(): Entry -> int {
    (e: Entry) => -e.date
  }

  /** `entries.OrderByDescending(e => e.Date)`, a stable sort. */
  function NewestFirst(entries: seq<Entry>): seq<Entry> {
    Seqs.SortBy(entries, ByDateDescending())
  }

  /** The lines of the whole page. */
  function PageLines(entries: seq<Entry>, css: string, exportedOn: string,
                     encode: string -> string, longDate: Day -> string): seq<Line> {
    Header(|entries|, css, exportedOn) + Blocks(NewestFirst(entries), encode, longDate) + Footer
  }

  /** The page opens with the doctype and the html element, carries the
      style block, and states the export day and the number of entries. */
  lemma PageOpening(entries: seq<Entry>, css: string, exportedOn: string,
                    encode: string -> string, longDate: Day -> string)
    ensures var page := PageLines(entries, css, exportedOn, encode, longDate);
      && |page| >= 16
      && page[0] == Doctype && page[1] == HtmlOpen && page[5] == StyleSheet(css)
      && page[11] == ExportedOn(exportedOn)
      && page[12] == TotalEntries(|entries|)
  {
    HeaderLeads(|entries|, css, exportedOn, Blocks(NewestFirst(entries), encode, longDate));
  }

  lemma HeaderLeads(count: nat, css: string, exportedOn: string, blocks: seq<Line>)
    ensures var page := Header(count, css, exportedOn) + blocks + Footer;
      && |page| >= 16
      && page[0] == Doctype && page[1] == HtmlOpen && page[5] == StyleSheet(css)
      && page[11] == ExportedOn(exportedOn)
      && page[12] == TotalEntries(count)
  {
  }

  /** The page closes the body and html elements. */
  lemma PageClosing(entries: seq<Entry>, css: string, exportedOn: string,
                    encode: string -> string, longDate: Day -> string)
    ensures var page := PageLines(entries, css, exportedOn, encode, longDate);
      |page| >= 2 && page[|page| - 2..] == [BodyClose, HtmlClose]
  {
    var body := Header(|entries|, css, exportedOn) + Blocks(NewestFirst(entries), encode, longDate);
    assert (body + Footer)[|body|..] == Footer;
  }

  /** The entry count is printed in decimal and reads back as the count. */
  lemma TotalEntriesReadsBack(n: nat)
    ensures exists digits :: Render(TotalEntries(n)) == "<p>Total Entries: " + digits + "</p>"
                             && (forall i :: 0 <= i < |digits| ==> '0' <= digits[i] <= '9')
                             && Text.ParseDigits(digits) == n
  {
    Text.NatToStringRoundTrip(n);
    assert Render(TotalEntries(n)) == "<p>Total Entries: " + Text.NatToString(n) + "</p>";
  }

  /** The entries are printed newest first: the printed order is a
      rearrangement of the entries whose dates never increase. */
  lemma NewestFirstOrder(entries: seq<Entry>)
    ensures var ordered := NewestFirst(entries);
      && multiset(ordered) == multiset(entries)
      && (forall i, j :: 0 <= i < j < |ordered| ==> ordered[i].date >= ordered[j].date)
  {
    var ordered := NewestFirst(entries);
    forall i, j | 0 <= i < j < |ordered| ensures ordered[i].date >= ordered[j].date {
      assert ByDateDescending()(ordered[i]) <= ByDateDescending()(ordered[j]);
    }
  }

  /** Entries of one day keep the order they came in. */
  lemma NewestFirstStable(entries: seq<Entry>, day: Day)
    ensures Seqs.WithKey(NewestFirst(entries), ByDateDescending(), -day)
         == Seqs.WithKey(entries, ByDateDescending(), -day)
  {
    Seqs.SortByStable(entries, ByDateDescending(), -day);
  }

  /** Every block opens with the entry's date and its encoded title and
      content, and closes its own element. */
  lemma EntryBlockFrame(e: Entry, encode: string -> string, longDate: Day -> string)
    ensures var b := EntryBlock(e, encode, longDate);
      && b[..4] == [EntryOpen, EntryDate(longDate(e.date)), EntryTitle(encode(e.title)), EntryContent(encode(e.content))]
      && b[|b| - 1] == DivClose
  {
  }

  function IsMoodBadge(): Line -> bool {
    (l: Line) => l.MoodBadge?
  }

  function IsTagBadge(): Line -> bool {
    (l: Line) => l.TagBadge?
  }

  /** A block has the mood container exactly when a mood slot is filled, and
      its mood badges are exactly one per filled slot, in slot order. */
  lemma EntryBlockMoods(e: Entry, encode: string -> string, longDate: Day -> string)
    ensures var b := EntryBlock(e, encode, longDate);
      && (MoodsOpen in b <==> e.primaryMood.Some? || e.secondaryMood1.Some? || e.secondaryMood2.Some?)
      && Seqs.Where(b, IsMoodBadge()) == MoodBadges(MoodLabels(e))
  {
    var b := EntryBlock(e, encode, longDate);
    var after := CategorySection(e) + TagSection(e, encode) + [DivClose];
    assert b == EntryHead(e, encode, longDate) + MoodSection(e) + after;
    assert MoodsOpen !in after;
    BlockMoodBadges(EntryHead(e, encode, longDate), MoodLabels(e), after);
  }

  lemma BlockMoodBadges(head: seq<Line>, labels: seq<string>, after: seq<Line>)
    requires forall i :: 0 <= i < |head| ==> !head[i].MoodBadge?
    requires forall i :: 0 <= i < |after| ==> !after[i].MoodBadge?
    ensures Seqs.Where(head + (if |labels| > 0 then [MoodsOpen] + MoodBadges(labels) + [DivClose] else []) + after, IsMoodBadge())
         == MoodBadges(labels)
  {
    var moods := if |labels| > 0 then [MoodsOpen] + MoodBadges(labels) + [DivClose] else [];
    assert forall i :: 0 <= i < |head| ==> !IsMoodBadge()(head[i]);
    assert forall i :: 0 <= i < |after| ==> !IsMoodBadge()(after[i]);
    Seqs.WhereSandwich(head, moods, after, IsMoodBadge());
    MoodSectionBadges(labels);
  }

  /** The badges of a mood section are its badge lines. */
  lemma MoodSectionBadges(labels: seq<string>)
    ensures Seqs.Where(if |labels| > 0 then [MoodsOpen] + MoodBadges(labels) + [DivClose] else [], IsMoodBadge())
         == MoodBadges(labels)
  {
    if |labels| > 0 {
      var badges := MoodBadges(labels);
      assert forall i :: 0 <= i < |badges| ==> IsMoodBadge()(badges[i]);
      Seqs.WhereAll(badges, IsMoodBadge());
      Seqs.WhereSandwich([MoodsOpen], badges, [DivClose], IsMoodBadge());
    }
  }

  /** The labels cover exactly the filled mood slots, in slot order. */
  lemma MoodLabelsOfSlots(e: Entry)
    ensures |MoodLabels(e)| == (if e.primaryMood.Some? then 1 else 0) + (if e.secondaryMood1.Some? then 1 else 0)
                             + (if e.secondaryMood2.Some? then 1 else 0)
    ensures e.primaryMood.Some? ==> MoodLabels(e)[0] == Moods.Label(e.primaryMood.value)
    ensures e.secondaryMood2.Some? ==> MoodLabels(e)[|MoodLabels(e)| - 1] == Moods.Label(e.secondaryMood2.value)
  {
  }

  /** A block has a category line exactly when the entry has a category. */
  lemma EntryBlockCategory(e: Entry, encode: string -> string, longDate: Day -> string)
    ensures var b := EntryBlock(e, encode, longDate);
      && (e.category.Some? ==> CategoryBadge(e.category.value.icon, e.category.value.name) in b)
      && (e.category.None? ==> forall i :: 0 <= i < |b| ==> !b[i].CategoryBadge?)
  {
    var b := EntryBlock(e, encode, longDate);
    var before := EntryHead(e, encode, longDate) + MoodSection(e);
    var after := TagSection(e, encode) + [DivClose];
    assert b == before + CategorySection(e) + after;
    assert forall l :: l in before ==> !l.CategoryBadge?;
    assert forall l :: l in after ==> !l.CategoryBadge?;
  }

  /** A block has the tag container exactly when the entry has tags, and its
      tag badges are exactly the entry's tags' encoded names, in list order. */
  lemma EntryBlockTags(e: Entry, encode: string -> string, longDate: Day -> string)
    ensures var b := EntryBlock(e, encode, longDate);
      && (TagsOpen in b <==> |e.tags| > 0)
      && Seqs.Where(b, IsTagBadge()) == TagBadges(e.tags, encode)
  {
    var b := EntryBlock(e, encode, longDate);
    var tags := TagSection(e, encode);
    var before := EntryHead(e, encode, longDate) + MoodSection(e) + CategorySection(e);
    assert b == before + tags + [DivClose];
    assert TagsOpen !in before;
    assert forall i :: 0 <= i < |before| ==> !IsTagBadge()(before[i]);
    Seqs.WhereSandwich(before, tags, [DivClose], IsTagBadge());
    TagSectionBadges(e.tags, encode);
  }

  /** The badges of a tag section are its badge lines. */
  lemma TagSectionBadges(tags: seq<Tags.Tag>, encode: string -> string)
    ensures Seqs.Where(if |tags| > 0 then [TagsOpen] + TagBadges(tags, encode) + [DivClose] else [], IsTagBadge())
         == TagBadges(tags, encode)
  {
    if |tags| > 0 {
      var badges := TagBadges(tags, encode);
      assert forall i :: 0 <= i < |badges| ==> IsTagBadge()(badges[i]);
      Seqs.WhereAll(badges, IsTagBadge());
      Seqs.WhereSandwich([TagsOpen], badges, [DivClose], IsTagBadge());
    }
  }

  /** A block opens exactly one entry element. */
  lemma EntryBlockOpensOnce(e: Entry, encode: string -> string, longDate: Day -> string)
    ensures Seqs.Occ(EntryBlock(e, encode, longDate), EntryOpen) == 1
  {
    var head := EntryHead(e, encode, longDate);
    var moods := MoodSection(e);
    var cat := CategorySection(e);
    var tags := TagSection(e, encode);
    var rest := [EntryDate(longDate(e.date)), EntryTitle(encode(e.title)), EntryContent(encode(e.content))];
    assert head == [EntryOpen] + rest;
    Seqs.OccConcat([EntryOpen], rest, EntryOpen);
    assert [EntryOpen][..0] == [];
    Seqs.OccAbsent(rest, EntryOpen);
    Seqs.OccAbsent(moods, EntryOpen);
    Seqs.OccAbsent(cat, EntryOpen);
    Seqs.OccAbsent(tags, EntryOpen);
    Seqs.OccAbsent([DivClose], EntryOpen);
    Seqs.OccConcat(head, moods, EntryOpen);
    Seqs.OccConcat(head + moods, cat, EntryOpen);
    Seqs.OccConcat(head + moods + cat, tags, EntryOpen);
    Seqs.OccConcat(head + moods + cat + tags, [DivClose], EntryOpen);
  }

  /** One block opening per entry. */
  lemma {:induction false} OneBlockPerEntry(es: seq<Entry>, encode: string -> string, longDate: Day -> string)
    ensures Seqs.Occ(Blocks(es, encode, longDate), EntryOpen) == |es|
  {
    if |es| > 0 {
      OneBlockPerEntry(es[..|es| - 1], encode, longDate);
      EntryBlockOpensOnce(es[|es| - 1], encode, longDate);
      Seqs.OccConcat(Blocks(es[..|es| - 1], encode, longDate), EntryBlock(es[|es| - 1], encode, longDate), EntryOpen);
    }
  }

  /** Over the whole page: one entry opening per exported entry, so the
      count in the header is the number of blocks. */
  lemma PageEntryCount(entries: seq<Entry>, css: string, exportedOn: string,
                       encode: string -> string, longDate: Day -> string)
    ensures Seqs.Occ(PageLines(entries, css, exportedOn, encode, longDate), EntryOpen) == |entries|
  {
    var header := Header(|entries|, css, exportedOn);
    var blocks := Blocks(NewestFirst(entries), encode, longDate);
    OneBlockPerEntry(NewestFirst(entries), encode, longDate);
    Seqs.OccConcat(header + blocks, Footer, EntryOpen);
    Seqs.OccConcat(header, blocks, EntryOpen);
    HeaderOpensNoEntry(|entries|, css, exportedOn);
    Seqs.OccAbsent(Footer, EntryOpen);
  }

  lemma HeaderOpensNoEntry(count: nat, css: string, exportedOn: string)
    ensures Seqs.Occ(Header(count, css, exportedOn), EntryOpen) == 0
  {
    var header := Header(count, css, exportedOn);
    assert forall i :: 0 <= i < |header| ==> !header[i].EntryOpen?;
    Seqs.OccAbsent(header, EntryOpen);
  }

  /** `GenerateHtmlContent`: appends the page line by line and returns its
      text. `encode` is `WebUtility.HtmlEncode`; `longDate` prints a day as
      "dddd, MMMM dd, yyyy". */
  method GenerateHtmlContent(entries: seq<Entry>, css: string, exportedOn: string,
                             encode: string -> string, longDate: Day -> string) returns (html: seq<string>)
    ensures html == RenderAll(PageLines(entries, css, exportedOn, encode, longDate))
  {
    var lines := Header(|entries|, css, exportedOn);
    var ordered := Seqs.SortBy(entries, ByDateDescending());
    for i := 0 to |ordered|
      invariant lines == Header(|entries|, css, exportedOn) + Blocks(ordered[..i], encode, longDate)
    {
      var block := AppendEntry(ordered[i], encode, longDate);
      BlocksStep(ordered, i, encode, longDate);
      Seqs.AppendAssoc(Header(|entries|, css, exportedOn), Blocks(ordered[..i], encode, longDate), block);
      lines := lines + block;
    }
    assert ordered[..|ordered|] == ordered;
    lines := lines + [BodyClose, HtmlClose];
    html := RenderAll(lines);
  }

  lemma BlocksStep(es: seq<Entry>, i: nat, encode: string -> string, longDate: Day -> string)
    requires i < |es|
    ensures Blocks(es[..i + 1], encode, longDate) == Blocks(es[..i], encode, longDate) + EntryBlock(es[i], encode, longDate)
  {
    assert es[..i + 1][..i] == es[..i];
  }

  /** The lines the loop body appends for one entry: the mood labels of the
      filled slots are collected first, and each container is written only
      when it has something in it. */
  method AppendEntry(e: Entry, encode: string -> string, longDate: Day -> string) returns (lines: seq<Line>)
    ensures lines == EntryBlock(e, encode, longDate)
  {
    var head := EntryHead(e, encode, longDate);
    lines := head;
    var moods := CollectMoods(e);
    if |moods| > 0 {
      lines := AppendMoodBadges(lines, moods);
    } else {
      assert lines == head + [];
    }
    assert lines == head + MoodSection(e);
    ghost var before := lines;
    if e.category.Some? {
      lines := lines + [CategoryBadge(e.category.value.icon, e.category.value.name)];
    } else {
      assert lines == before + [];
    }
    assert lines == head + MoodSection(e) + CategorySection(e);
    before := lines;
    if |e.tags| > 0 {
      lines := AppendTagBadges(lines, e.tags, encode);
    } else {
      assert lines == before + [];
    }
    assert lines == head + MoodSection(e) + CategorySection(e) + TagSection(e, encode);
    lines := lines + [DivClose];
  }

  /** The mood container and one badge per label. */
  method AppendMoodBadges(before: seq<Line>, moods: seq<string>) returns (lines: seq<Line>)
    ensures lines == before + ([MoodsOpen] + MoodBadges(moods) + [DivClose])
  {
    lines := before + [MoodsOpen];
    for j := 0 to |moods|
      invariant lines == before + [MoodsOpen] + MoodBadges(moods[..j])
    {
      MoodBadgesStep(moods, j);
      Seqs.AppendAssoc(before + [MoodsOpen], MoodBadges(moods[..j]), [MoodBadge(moods[j])]);
      lines := lines + [MoodBadge(moods[j])];
    }
    assert moods[..|moods|] == moods;
    Section(before, MoodsOpen, MoodBadges(moods));
    lines := lines + [DivClose];
  }

  /** The tag container and one encoded badge per tag. */
  method AppendTagBadges(before: seq<Line>, tags: seq<Tags.Tag>, encode: string -> string) returns (lines: seq<Line>)
    ensures lines == before + ([TagsOpen] + TagBadges(tags, encode) + [DivClose])
  {
    lines := before + [TagsOpen];
    for j := 0 to |tags|
      invariant lines == before + [TagsOpen] + TagBadges(tags[..j], encode)
    {
      TagBadgesStep(tags, j, encode);
      Seqs.AppendAssoc(before + [TagsOpen], TagBadges(tags[..j], encode), [TagBadge(encode(tags[j].name))]);
      lines := lines + [TagBadge(encode(tags[j].name))];
    }
    assert tags[..|tags|] == tags;
    Section(before, TagsOpen, TagBadges(tags, encode));
    lines := lines + [DivClose];
  }

  /** The local list of mood labels, one per filled slot. */
  method CollectMoods(e: Entry) returns (moods: seq<string>)
    ensures moods == MoodLabels(e)
  {
    moods := [];
    if e.primaryMood.Some? {
      moods := moods + [Moods.Label(e.primaryMood.value)];
    }
    if e.secondaryMood1.Some? {
      moods := moods + [Moods.Label(e.secondaryMood1.value)];
    }
    if e.secondaryMood2.Some? {
      moods := moods + [Moods.Label(e.secondaryMood2.value)];
    }
  }

  lemma MoodBadgesStep(labels: seq<string>, j: nat)
    requires j < |labels|
    ensures MoodBadges(labels[..j + 1]) == MoodBadges(labels[..j]) + [MoodBadge(labels[j])]
  {
  }

  lemma TagBadgesStep(tags: seq<Tags.Tag>, j: nat, encode: string -> string)
    requires j < |tags|
    ensures TagBadges(tags[..j + 1], encode) == TagBadges(tags[..j], encode) + [TagBadge(encode(tags[j].name))]
  {
  }

  lemma Section(before: seq<Line>, open: Line, items: seq<Line>)
    ensures before + [open] + items + [DivClose] == before + ([open] + items + [DivClose])
  {
  }
}
