/** The mood catalogue: the three mood categories and the fifteen moods
    seeded into a fresh journal. */
module Moods {
  import opened Wrappers
  import Seqs

  /** The three mood categories; the enum's underlying values are 0, 1, 2. */
  datatype MoodCategory = Positive | Neutral | Negative

  const Categories: seq<MoodCategory> := [Positive, Neutral, Negative]

  /** The integer a category is stored and compared as. */
  function Ordinal(c: MoodCategory): (n: nat)
    ensures n < |Categories| && Categories[n] == c
  {
    match c
    case Positive => 0
    case Neutral => 1
    case Negative => 2
  }

  /** Every category appears exactly once in `Categories`, in declaration order. */
  lemma CategoriesEnumerated()
    ensures Seqs.NoDup(Categories)
    ensures forall c: MoodCategory :: c in Categories
    ensures forall i :: 0 <= i < |Categories| ==> Ordinal(Categories[i]) == i
  {
    forall c: MoodCategory ensures c in Categories {
      assert Categories[Ordinal(c)] == c;
    }
  }

  datatype Mood = Mood(id: int, name: string, category: MoodCategory, emoji: string)

  /** `new Mood()`: id 0, empty name and emoji, the default category. */
  function NewMood(): (m: Mood)
    ensures m.name == "" && m.emoji == "" && m.id == 0 && Ordinal(m.category) == 0
  {
    Mood(0, "", Positive, "")
  }

  /** How a mood is shown in text: its emoji, a space, its name. */
  function Label(m: Mood): string {
    m.emoji + " " + m.name
  }

  /** The label splits back into the emoji, the space and the name. */
  lemma LabelParts(m: Mood)
    ensures var text := Label(m);
      && |text| == |m.emoji| + 1 + |m.name|
      && text[..|m.emoji|] == m.emoji
      && text[|m.emoji|] == ' '
      && text[|m.emoji| + 1..] == m.name
  {
  }

  /** `Mood.GetDefaultMoods()`. */
  const DefaultMoods: seq<Mood> := [
    Mood(1, "Happy", Positive, "😊"),
    Mood(2, "Excited", Positive, "🤩"),
    Mood(3, "Relaxed", Positive, "😌"),
    Mood(4, "Grateful", Positive, "🙏"),
    Mood(5, "Confident", Positive, "💪"),
    Mood(6, "Calm", Neutral, "😐"),
    Mood(7, "Thoughtful", Neutral, "🤔"),
    Mood(8, "Curious", Neutral, "🧐"),
    Mood(9, "Nostalgic", Neutral, "🌅"),
    Mood(10, "Bored", Neutral, "😑"),
    Mood(11, "Sad", Negative, "😢"),
    Mood(12, "Angry", Negative, "😠"),
    Mood(13, "Stressed", Negative, "😰"),
    Mood(14, "Lonely", Negative, "😔"),
    Mood(15, "Anxious", Negative, "😨")
  ]

  /** `moods.FirstOrDefault(m => m.Id == id)`: the first mood with that id, if any. */
  function FindMood(moods: seq<Mood>, id: int): (r: Option<Mood>)
    ensures r.None? <==> forall i :: 0 <= i < |moods| ==> moods[i].id != id
    ensures r.Some? ==> exists k :: 0 <= k < |moods| && moods[k] == r.value && r.value.id == id
                                    && forall j :: 0 <= j < k ==> moods[j].id != id
  {
    if moods == [] then None
    else if moods[0].id == id then Some(moods[0])
    else
      var r := FindMood(moods[1..], id);
      assert forall i :: 1 <= i < |moods| ==> moods[i] == moods[1..][i - 1];
      if r.None? then r
      else
        var k :| 0 <= k < |moods[1..]| && moods[1..][k] == r.value && r.value.id == id
                 && forall j :: 0 <= j < k ==> moods[1..][j].id != id;
        assert moods[k + 1] == r.value;
        r
  }

  /** The default moods carry the ids 1..15 in list order, five per category:
      ids 1-5 are Positive, 6-10 Neutral and 11-15 Negative. */
  lemma DefaultMoodIds()
    ensures |DefaultMoods| == 15
    ensures forall i :: 0 <= i < 15 ==> DefaultMoods[i].id == i + 1
    ensures forall i :: 0 <= i < 15 ==> Ordinal(DefaultMoods[i].category) == i / 5
  {
  }

  /** Each category holds exactly five default moods. */
  lemma FivePerCategory(c: MoodCategory)
    ensures |Seqs.Where(DefaultMoods, (m: Mood) => m.category == c)| == 5
  {
    DefaultMoodIds();
    FiveEach(DefaultMoods, c);
  }

  lemma FiveEach(s: seq<Mood>, c: MoodCategory)
    requires |s| == 15 && forall i :: 0 <= i < 15 ==> Ordinal(s[i].category) == i / 5
    ensures |Seqs.Where(s, (m: Mood) => m.category == c)| == 5
  {
    var p := (m: Mood) => m.category == c;
    var a, b, d := s[..5], s[5..10], s[10..];
    assert s == a + b + d;
    var na := BlockCount(a, c, Positive);
    var nb := BlockCount(b, c, Neutral);
    var nd := BlockCount(d, c, Negative);
    Seqs.WhereConcat(a, b, p);
    Seqs.WhereConcat(a + b, d, p);
  }

  lemma BlockCount(t: seq<Mood>, c: MoodCategory, k: MoodCategory) returns (n: nat)
    requires |t| == 5 && forall i :: 0 <= i < 5 ==> t[i].category == k
    ensures n == |Seqs.Where(t, (m: Mood) => m.category == c)| && n == if k == c then 5 else 0
  {
    Seqs.WhereUniform(t, (m: Mood) => m.category == c);
    n := |Seqs.Where(t, (m: Mood) => m.category == c)|;
  }

  /** The default mood names are pairwise distinct. */
  lemma DefaultMoodNamesDistinct()
    ensures forall i, j :: 0 <= i < j < |DefaultMoods| ==> DefaultMoods[i].name != DefaultMoods[j].name
  {
  }
}
