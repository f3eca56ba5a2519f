/** The tag catalogue: a tag record and the 31 tags seeded into a fresh journal. */
module Tags {
  import Text

  datatype Tag = Tag(id: int, name: string, isPreDefined: bool, color: string)

  /** The accent colour every tag starts with. */
  const DefaultColor: string := "#ae866c"

  /** `new Tag()`: id 0, empty name, not predefined, the accent colour. */
  function NewTag(): (t: Tag)
    ensures t.id == 0 && t.name == "" && !t.isPreDefined && t.color == DefaultColor
  {
    Tag(0, "", false, DefaultColor)
  }

  /** The names of the seeded tags, in seeding order. */
  const DefaultTagNames: seq<string> := [
    "Work", "Career", "Studies", "Family", "Friends", "Relationships",
    "Health", "Fitness", "Personal Growth", "Self-care", "Hobbies",
    "Travel", "Nature", "Finance", "Spirituality", "Birthday",
    "Holiday", "Vacation", "Celebration", "Exercise", "Reading",
    "Writing", "Cooking", "Meditation", "Yoga", "Music", "Shopping",
    "Parenting", "Projects", "Planning", "Reflection"
  ]

  /** `names.Select((tag, index) => new Tag { Id = index + 1, Name = tag, IsPreDefined = true, Color = ... })`. */
  function NumberTags(names: seq<string>): (tags: seq<Tag>)
    ensures |tags| == |names|
    ensures forall i :: 0 <= i < |names| ==>
              tags[i] == Tag(i + 1, names[i], true, DefaultColor)
  {
    seq(|names|, i requires 0 <= i < |names| => Tag(i + 1, names[i], true, DefaultColor))
  }

  /** `Tag.GetDefaultTags()`. */
  function DefaultTags(): seq<Tag> {
    NumberTags(DefaultTagNames)
  }

  /** There are 31 default tags; each one's id is its position plus one (so the
      ids are 1..31 and consecutive), and each is predefined with the accent colour. */
  lemma DefaultTagsShape()
    ensures |DefaultTags()| == 31
    ensures forall i :: 0 <= i < 31 ==> DefaultTags()[i].id == i + 1
    ensures forall i :: 0 <= i < 31 ==> DefaultTags()[i].isPreDefined && DefaultTags()[i].color == DefaultColor
    ensures forall i, j :: 0 <= i < j < 31 ==> DefaultTags()[i].id < DefaultTags()[j].id
  {
  }

  /** What two names equal up to ASCII case always share: their length and
      their first and third characters, upper-cased. */
  function Key(s: string): (nat, char, char)
    requires |s| >= 3
  {
    (|s|, Text.FoldChar(s[0]), Text.FoldChar(s[2]))
  }

  lemma KeyIgnoresCase(a: string, b: string)
    requires |a| >= 3 && |b| >= 3 && Text.EqualsIgnoreCase(a, b)
    ensures Key(a) == Key(b)
  {
    assert Text.FoldChar(a[0]) == Text.FoldChar(b[0]);
    assert Text.FoldChar(a[2]) == Text.FoldChar(b[2]);
  }

  /** The keys of the default tag names, in order: names of the same length
      differ in their first or third letter. */
  const NameKeys: seq<(nat, char, char)> := [
    (4, 'W', 'R'), (6, 'C', 'R'), (7, 'S', 'U'), (6, 'F', 'M'), (7, 'F', 'I'), (13, 'R', 'L'),
    (6, 'H', 'A'), (7, 'F', 'T'), (15, 'P', 'R'), (9, 'S', 'L'), (7, 'H', 'B'),
    (6, 'T', 'A'), (6, 'N', 'T'), (7, 'F', 'N'), (12, 'S', 'I'), (8, 'B', 'R'),
    (7, 'H', 'L'), (8, 'V', 'C'), (11, 'C', 'L'), (8, 'E', 'E'), (7, 'R', 'A'),
    (7, 'W', 'I'), (7, 'C', 'O'), (10, 'M', 'D'), (4, 'Y', 'G'), (5, 'M', 'S'), (8, 'S', 'O'),
    (9, 'P', 'R'), (8, 'P', 'O'), (8, 'P', 'A'), (10, 'R', 'F')
  ]

  lemma NameKeysDistinct()
    ensures forall i, j :: 0 <= i < j < |NameKeys| ==> NameKeys[i] != NameKeys[j]
  {
  }

  lemma KeysFrom0()
    ensures |DefaultTagNames| == 31
    ensures forall i :: 0 <= i < 8 ==> |DefaultTagNames[i]| >= 3 && Key(DefaultTagNames[i]) == NameKeys[i]
  {
  }

  lemma KeysFrom8()
    ensures |DefaultTagNames| == 31
    ensures forall i :: 8 <= i < 16 ==> |DefaultTagNames[i]| >= 3 && Key(DefaultTagNames[i]) == NameKeys[i]
  {
  }

  lemma KeysFrom16()
    ensures |DefaultTagNames| == 31
    ensures forall i :: 16 <= i < 24 ==> |DefaultTagNames[i]| >= 3 && Key(DefaultTagNames[i]) == NameKeys[i]
  {
  }

  lemma KeysFrom24()
    ensures |DefaultTagNames| == 31
    ensures forall i :: 24 <= i < 31 ==> |DefaultTagNames[i]| >= 3 && Key(DefaultTagNames[i]) == NameKeys[i]
  {
  }

  /** No two default tag names are equal, even when ASCII case is ignored. */
  lemma DefaultTagNamesDistinct()
    ensures forall i, j :: 0 <= i < j < |DefaultTags()| ==>
              !Text.EqualsIgnoreCase(DefaultTags()[i].name, DefaultTags()[j].name)
  {
    KeysFrom0(); KeysFrom8(); KeysFrom16(); KeysFrom24();
    NameKeysDistinct();
    forall i, j | 0 <= i < j < |DefaultTags()|
      ensures !Text.EqualsIgnoreCase(DefaultTags()[i].name, DefaultTags()[j].name)
    {
      if Text.EqualsIgnoreCase(DefaultTagNames[i], DefaultTagNames[j]) {
        KeyIgnoresCase(DefaultTagNames[i], DefaultTagNames[j]);
      }
    }
  }
}
