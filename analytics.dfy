/** The analytics engine: streak counters, the mood distribution with its
    percentages and the most frequent mood, the tag usage ranking, and the
    word-count statistics, all computed from the entries inside an optional
    date window. The mood catalogue, the tags of each entry and the word count
    of each entry come from the database and are parameters here. */
module Analytics {
  import opened Wrappers
  import Seqs
  import opened Moods
  import opened Journal
  import Streaks

  // ---------------------------------------------------------------- window

  /** An entry lies in the window when it is not before `start` and not after
      `end`; a missing bound does not restrict. */
  predicate InWindow(start: Option<Day>, end: Option<Day>, e: Entry) {
    (start.None? || e.date >= start.value) && (end.None? || e.date <= end.value)
  }

  function InWindowOf(start: Option<Day>, end: Option<Day>): Entry -> bool {
    (e: Entry) => InWindow(start, end, e)
  }

  /** The two successive filters of `GetAnalyticsAsync`: first by the start
      date when one is given, then by the end date when one is given. */
  function Window(entries: seq<Entry>, start: Option<Day>, end: Option<Day>): (w: seq<Entry>)
    ensures |w| <= |entries|
    ensures forall e :: e in w <==> e in entries && InWindow(start, end, e)
  {
    var afterStart := if start.Some? then Seqs.Where(entries, (e: Entry) => e.date >= start.value) else entries;
    if end.Some? then Seqs.Where(afterStart, (e: Entry) => e.date <= end.value) else afterStart
  }

  /** The two filters together keep exactly the entries in the window, in
      their original order. */
  lemma WindowIsOneFilter(entries: seq<Entry>, start: Option<Day>, end: Option<Day>)
    ensures Window(entries, start, end) == Seqs.Where(entries, InWindowOf(start, end))
  {
    if start.Some? && end.Some? {
      var p := (e: Entry) => e.date >= start.value;
      var q := (e: Entry) => e.date <= end.value;
      Seqs.WhereWhere(entries, p, q);
      Seqs.WhereSameCondition(entries, Seqs.Both(p, q), InWindowOf(start, end));
    } else if start.Some? {
      Seqs.WhereSameCondition(entries, (e: Entry) => e.date >= start.value, InWindowOf(start, end));
    } else if end.Some? {
      Seqs.WhereSameCondition(entries, (e: Entry) => e.date <= end.value, InWindowOf(start, end));
    } else {
      Seqs.WhereAll(entries, InWindowOf(start, end));
    }
  }

  // ---------------------------------------------------------------- counting

  /** `if (!d.ContainsKey(k)) d[k] = 0; d[k]++;` on a dictionary that has so
      far counted the keys `seen`: afterwards it has counted `seen + [k]`. */
  method Tally<K(==,!new)>(keys: seq<K>, counts: map<K, nat>, k: K, ghost seen: seq<K>)
    returns (keys': seq<K>, counts': map<K, nat>)
    requires keys == Seqs.Dedup(seen) && counts == Seqs.CountMap(seen)
    ensures keys' == Seqs.Dedup(seen + [k]) && counts' == Seqs.CountMap(seen + [k])
  {
    Seqs.DedupAppend(seen, k);
    Seqs.CountMapAppend(seen, k);
    Seqs.CountMapCounts(seen);
    keys', counts' := keys, counts;
    if k !in counts' {
      keys' := keys' + [k];
      counts' := counts'[k := 0];
    }
    ghost var before := counts';
    counts' := counts'[k := counts'[k] + 1];
    assert counts' == counts[k := before[k] + 1];
  }

  // ---------------------------------------------------------------- moods

  /** What one mood slot contributes to the count: the id of the mood it
      names, when the slot is set and the catalogue holds that mood. */
  function SlotMood(moods: seq<Mood>, slot: Option<int>): (r: seq<int>)
    ensures |r| <= 1
    ensures r != [] <==> slot.Some? && FindMood(moods, slot.value).Some?
    ensures r != [] ==> r[0] == slot.value
  {
    match slot
    case None => []
    case Some(id) =>
      match FindMood(moods, id)
      case None => []
      case Some(m) => [m.id]
  }

  /** The moods one entry contributes: primary, then the two secondary slots. */
  function EntryMoods(moods: seq<Mood>, e: Entry): seq<int> {
    SlotMood(moods, e.primaryMoodId) + SlotMood(moods, e.secondaryMood1Id) + SlotMood(moods, e.secondaryMood2Id)
  }

  /** Every mood occurrence the counting loop sees, in the order it sees them. */
  function CountedMoods(moods: seq<Mood>, entries: seq<Entry>): seq<int> {
    if |entries| == 0 then []
    else CountedMoods(moods, entries[..|entries| - 1]) + EntryMoods(moods, entries[|entries| - 1])
  }

  /** Every counted mood id names a mood of the catalogue. */
  lemma {:induction false} CountedMoodsResolve(moods: seq<Mood>, entries: seq<Entry>)
    ensures forall k :: k in CountedMoods(moods, entries) ==> FindMood(moods, k).Some?
  {
    if |entries| > 0 {
      CountedMoodsResolve(moods, entries[..|entries| - 1]);
      var e := entries[|entries| - 1];
      forall k | k in EntryMoods(moods, e) ensures FindMood(moods, k).Some? {
        if k in SlotMood(moods, e.primaryMoodId) {
        } else if k in SlotMood(moods, e.secondaryMood1Id) {
        } else {
          assert k in SlotMood(moods, e.secondaryMood2Id);
        }
      }
    }
  }

  /** One `if (slot.HasValue) { lookup; if found, count it }` block. */
  method CountSlot(keys: seq<int>, counts: map<int, nat>, moods: seq<Mood>, slot: Option<int>, ghost seen: seq<int>)
    returns (keys': seq<int>, counts': map<int, nat>)
    requires keys == Seqs.Dedup(seen) && counts == Seqs.CountMap(seen)
    ensures keys' == Seqs.Dedup(seen + SlotMood(moods, slot)) && counts' == Seqs.CountMap(seen + SlotMood(moods, slot))
  {
    keys', counts' := keys, counts;
    assert seen + [] == seen;
    if slot.Some? {
      var mood := FindMood(moods, slot.value);
      if mood.Some? {
        keys', counts' := Tally(keys, counts, mood.value.id, seen);
      }
    }
  }

  /** The first loop of the mood analytics: the dictionary from mood id to
      the number of slots that name it, keys in first-seen order. */
  method CountMoods(moods: seq<Mood>, entries: seq<Entry>) returns (keys: seq<int>, counts: map<int, nat>)
    ensures keys == Seqs.Dedup(CountedMoods(moods, entries))
    ensures counts == Seqs.CountMap(CountedMoods(moods, entries))
  {
    keys, counts := [], map[];
    var i := 0;
    while i < |entries|
      invariant 0 <= i <= |entries|
      invariant keys == Seqs.Dedup(CountedMoods(moods, entries[..i]))
      invariant counts == Seqs.CountMap(CountedMoods(moods, entries[..i]))
    {
      var e := entries[i];
      ghost var seen := CountedMoods(moods, entries[..i]);
      keys, counts := CountSlot(keys, counts, moods, e.primaryMoodId, seen);
      seen := seen + SlotMood(moods, e.primaryMoodId);
      keys, counts := CountSlot(keys, counts, moods, e.secondaryMood1Id, seen);
      seen := seen + SlotMood(moods, e.secondaryMood1Id);
      keys, counts := CountSlot(keys, counts, moods, e.secondaryMood2Id, seen);
      seen := seen + SlotMood(moods, e.secondaryMood2Id);
      CountedMoodsStep(moods, entries, i);
      i := i + 1;
    }
    assert entries[..|entries|] == entries;
  }

  lemma CountedMoodsStep(moods: seq<Mood>, entries: seq<Entry>, i: int)
    requires 0 <= i < |entries|
    ensures CountedMoods(moods, entries[..i + 1])
         == CountedMoods(moods, entries[..i]) + SlotMood(moods, entries[i].primaryMoodId)
            + SlotMood(moods, entries[i].secondaryMood1Id) + SlotMood(moods, entries[i].secondaryMood2Id)
  {
    assert entries[..i + 1][..i] == entries[..i];
    var e := entries[i];
    Concat4(CountedMoods(moods, entries[..i]), SlotMood(moods, e.primaryMoodId),
            SlotMood(moods, e.secondaryMood1Id), SlotMood(moods, e.secondaryMood2Id));
  }

  lemma Concat4<T>(a: seq<T>, b: seq<T>, c: seq<T>, d: seq<T>)
    ensures a + (b + c + d) == a + b + c + d
  {
  }

  /** Whether the catalogue places mood `id` in category `c`. */
  predicate InCategory(moods: seq<Mood>, c: MoodCategory, id: int) {
    FindMood(moods, id).Some? && FindMood(moods, id).value.category == c
  }

  function InCategoryOf(moods: seq<Mood>, c: MoodCategory): int -> bool {
    (id: int) => InCategory(moods, c, id)
  }

  /** How many counted mood slots name a mood of category `c`. */
  function MoodCount(moods: seq<Mood>, entries: seq<Entry>, c: MoodCategory): nat {
    |Seqs.Where(CountedMoods(moods, entries), InCategoryOf(moods, c))|
  }

  /** Every key of the dictionary's key list has a count. */
  lemma KeysCounted<K(!new)>(s: seq<K>)
    ensures forall i :: 0 <= i < |Seqs.Dedup(s)| ==> Seqs.Dedup(s)[i] in Seqs.CountMap(s)
  {
    Seqs.CountMapCounts(s);
    forall i | 0 <= i < |Seqs.Dedup(s)| ensures Seqs.Dedup(s)[i] in Seqs.CountMap(s) {
      assert Seqs.Dedup(s)[i] in Seqs.Dedup(s);
    }
  }

  /** The roll-up loop: every category starts at 0 and each counted mood id
      adds its count to its mood's category. */
  method Distribute(moods: seq<Mood>, keys: seq<int>, counts: map<int, nat>) returns (dist: map<MoodCategory, nat>)
    requires forall i :: 0 <= i < |keys| ==> keys[i] in counts
    ensures forall c :: c in dist && dist[c] == Seqs.SumWhere(keys, counts, InCategoryOf(moods, c))
  {
    dist := map[Positive := 0, Neutral := 0, Negative := 0];
    var i := 0;
    forall c ensures c in dist && dist[c] == Seqs.SumWhere(keys[..0], counts, InCategoryOf(moods, c)) {
      assert c.Positive? || c.Neutral? || c.Negative?;
    }
    while i < |keys|
      invariant 0 <= i <= |keys|
      invariant forall c :: c in dist && dist[c] == Seqs.SumWhere(keys[..i], counts, InCategoryOf(moods, c))
    {
      var k := keys[i];
      DistributeStep(moods, keys, counts, i, dist);
      var mood := FindMood(moods, k);
      if mood.Some? {
        dist := dist[mood.value.category := dist[mood.value.category] + counts[k]];
      }
      i := i + 1;
    }
    assert keys[..|keys|] == keys;
  }

  /** One turn of the roll-up loop keeps every category's total. */
  lemma DistributeStep(moods: seq<Mood>, keys: seq<int>, counts: map<int, nat>, i: nat, dist: map<MoodCategory, nat>)
    requires i < |keys| && keys[i] in counts
    requires forall c :: c in dist && dist[c] == Seqs.SumWhere(keys[..i], counts, InCategoryOf(moods, c))
    ensures var mood := FindMood(moods, keys[i]);
      var next := if mood.Some? then dist[mood.value.category := dist[mood.value.category] + counts[keys[i]]] else dist;
      forall c :: c in next && next[c] == Seqs.SumWhere(keys[..i + 1], counts, InCategoryOf(moods, c))
  {
    assert keys[..i + 1] == keys[..i] + [keys[i]];
    forall c {
      Seqs.SumWhereAppend(keys[..i], keys[i], counts, InCategoryOf(moods, c));
    }
  }

  /** The roll-up of the counting dictionary into a category counts the slots
      whose mood belongs to that category. */
  lemma DistributionCountsSlots(moods: seq<Mood>, entries: seq<Entry>, c: MoodCategory)
    ensures var r := CountedMoods(moods, entries);
            Seqs.SumWhere(Seqs.Dedup(r), Seqs.CountMap(r), InCategoryOf(moods, c)) == MoodCount(moods, entries, c)
  {
    Seqs.CountMapSum(CountedMoods(moods, entries), InCategoryOf(moods, c));
  }

  /** Every counted slot falls in exactly one category, so the distribution
      adds up to the number of counted slots. */
  lemma DistributionTotal(moods: seq<Mood>, entries: seq<Entry>)
    ensures MoodCount(moods, entries, Positive) + MoodCount(moods, entries, Neutral) + MoodCount(moods, entries, Negative)
         == |CountedMoods(moods, entries)|
  {
    var r := CountedMoods(moods, entries);
    CountedMoodsResolve(moods, entries);
    forall i | 0 <= i < |r|
      ensures (if InCategoryOf(moods, Positive)(r[i]) then 1 else 0) + (if InCategoryOf(moods, Neutral)(r[i]) then 1 else 0)
            + (if InCategoryOf(moods, Negative)(r[i]) then 1 else 0) == 1
    {
      assert r[i] in r;
    }
    Seqs.WherePartition(r, InCategoryOf(moods, Positive), InCategoryOf(moods, Neutral), InCategoryOf(moods, Negative));
  }

  /** `part * 100.0 / total` when the total is positive; 0 otherwise. */
  function Percentage(part: nat, total: nat): real {
    if total > 0 then (part as real * 100.0) / total as real else 0.0
  }

  lemma PercentageBounds(part: nat, total: nat)
    requires part <= total
    ensures 0.0 <= Percentage(part, total) <= 100.0
    ensures total > 0 && part == total ==> Percentage(part, total) == 100.0
  {
    if total > 0 {
      assert part as real * 100.0 <= total as real * 100.0;
    }
  }

  /** Three parts of a positive total share out exactly 100 percent. */
  lemma PercentagesSum(a: nat, b: nat, c: nat)
    requires a + b + c > 0
    ensures Percentage(a, a + b + c) + Percentage(b, a + b + c) + Percentage(c, a + b + c) == 100.0
  {
    var t := (a + b + c) as real;
    assert (a as real * 100.0) / t + (b as real * 100.0) / t + (c as real * 100.0) / t
        == ((a as real + b as real + c as real) * 100.0) / t;
  }

  /** A dictionary lookup that reads a missing key as 0. */
  function CountOf<K>(counts: map<K, nat>, k: K): nat {
    if k in counts then counts[k] else 0
  }

  /** Sort key of `OrderByDescending(pair => pair.Value)`: the count, negated. */
  function ByCountDescending<K>(counts: map<K, nat>): K -> int {
    k => -(CountOf(counts, k) as int)
  }

  /** The keys ranked by count, largest first, ties in dictionary order. */
  function Ranked<K>(keys: seq<K>, counts: map<K, nat>): seq<K> {
    Seqs.SortBy(keys, ByCountDescending(counts))
  }

  /** Along the ranking, counts never increase. */
  lemma RankedDescends<K>(keys: seq<K>, counts: map<K, nat>, i: int, j: int)
    requires 0 <= i < j < |keys|
    ensures CountOf(counts, Ranked(keys, counts)[i]) >= CountOf(counts, Ranked(keys, counts)[j])
  {
    var r := Ranked(keys, counts);
    assert ByCountDescending(counts)(r[i]) <= ByCountDescending(counts)(r[j]);
  }

  /** The ranking holds every key, and only keys. */
  lemma RankedMembers<K>(keys: seq<K>, counts: map<K, nat>, k: K)
    ensures k in Ranked(keys, counts) <==> k in keys
  {
    var r := Ranked(keys, counts);
    assert k in r <==> k in multiset(r);
  }

  /** `counts.OrderByDescending(m => m.Value).First().Key`. */
  function MostFrequentKey(keys: seq<int>, counts: map<int, nat>): int
    requires keys != []
  {
    Ranked(keys, counts)[0]
  }

  /** No key has a larger count than the most frequent key. */
  lemma MostFrequentIsMaximum(keys: seq<int>, counts: map<int, nat>)
    requires keys != []
    ensures MostFrequentKey(keys, counts) in keys
    ensures forall k :: k in keys ==> CountOf(counts, k) <= CountOf(counts, MostFrequentKey(keys, counts))
  {
    var r := Ranked(keys, counts);
    RankedMembers(keys, counts, r[0]);
    forall k | k in keys ensures CountOf(counts, k) <= CountOf(counts, r[0]) {
      RankedMembers(keys, counts, k);
      var j :| 0 <= j < |r| && r[j] == k;
      if j > 0 {
        RankedDescends(keys, counts, 0, j);
      }
    }
  }

  /** Every key before the most frequent key, in dictionary order, has a
      smaller count: ties go to the key counted first (the sort is stable). */
  lemma MostFrequentIsFirst(keys: seq<int>, counts: map<int, nat>)
    requires keys != []
    ensures exists i :: 0 <= i < |keys| && keys[i] == MostFrequentKey(keys, counts)
                        && forall j :: 0 <= j < i ==> CountOf(counts, keys[j]) < CountOf(counts, keys[i])
  {
    var key := ByCountDescending(counts);
    var f := MostFrequentKey(keys, counts);
    MostFrequentIsMaximum(keys, counts);
    Seqs.SortByStable(keys, key, key(f));
    assert Seqs.WithKey(Ranked(keys, counts), key, key(f))[0] == f;
    Seqs.WithKeyHead(keys, key, key(f));
    var i :| 0 <= i < |keys| && keys[i] == f && key(keys[i]) == key(f)
             && forall j :: 0 <= j < i ==> key(keys[j]) != key(f);
    forall j | 0 <= j < i ensures CountOf(counts, keys[j]) < CountOf(counts, keys[i]) {
      assert keys[j] in keys;
      assert key(keys[j]) == -(CountOf(counts, keys[j]) as int);
    }
  }

  /** The catalogue entry of the most frequently counted mood, if any mood was counted. */
  function MostFrequentMood(moods: seq<Mood>, entries: seq<Entry>): Option<Mood> {
    var r := CountedMoods(moods, entries);
    if r == [] then None else FindMood(moods, MostFrequentKey(Seqs.Dedup(r), Seqs.CountMap(r)))
  }

  /** When any mood was counted, the most frequent mood is found in the
      catalogue and no mood was counted more often. */
  lemma MostFrequentMoodIsMostCounted(moods: seq<Mood>, entries: seq<Entry>)
    ensures MostFrequentMood(moods, entries).None? <==> CountedMoods(moods, entries) == []
    ensures var r := CountedMoods(moods, entries);
            MostFrequentMood(moods, entries).Some? ==>
              var m := MostFrequentMood(moods, entries).value;
              m in moods && m.id in r && forall k :: k in r ==> Seqs.Occ(r, k) <= Seqs.Occ(r, m.id)
  {
    var r := CountedMoods(moods, entries);
    if r != [] {
      var keys, counts := Seqs.Dedup(r), Seqs.CountMap(r);
      assert r[0] in keys;
      MostFrequentIsMaximum(keys, counts);
      CountedMoodsResolve(moods, entries);
      var f := MostFrequentKey(keys, counts);
      forall k | k in r ensures Seqs.Occ(r, k) <= Seqs.Occ(r, f) {
        assert k in keys;
        CountOfCountMap(r, k);
        CountOfCountMap(r, f);
      }
    }
  }

  lemma CountOfCountMap<K(!new)>(s: seq<K>, k: K)
    ensures CountOf(Seqs.CountMap(s), k) == Seqs.Occ(s, k)
  {
    Seqs.CountMapCounts(s);
    if k !in s {
      Seqs.OccAbsent(s, k);
    }
  }

  /** Among moods counted equally often, the most frequent mood is the one
      counted first. */
  lemma MostFrequentMoodBreaksTiesByFirstCount(moods: seq<Mood>, entries: seq<Entry>)
    requires CountedMoods(moods, entries) != []
    ensures var r := CountedMoods(moods, entries);
            var f := MostFrequentKey(Seqs.Dedup(r), Seqs.CountMap(r));
            exists i :: 0 <= i < |Seqs.Dedup(r)| && Seqs.Dedup(r)[i] == f
                        && forall j :: 0 <= j < i ==> Seqs.Occ(r, Seqs.Dedup(r)[j]) < Seqs.Occ(r, f)
  {
    FirstCountedWins(CountedMoods(moods, entries));
  }

  lemma FirstCountedWins(r: seq<int>)
    requires r != []
    ensures var f := MostFrequentKey(Seqs.Dedup(r), Seqs.CountMap(r));
            exists i :: 0 <= i < |Seqs.Dedup(r)| && Seqs.Dedup(r)[i] == f
                        && forall j :: 0 <= j < i ==> Seqs.Occ(r, Seqs.Dedup(r)[j]) < Seqs.Occ(r, f)
  {
    var keys, counts := Seqs.Dedup(r), Seqs.CountMap(r);
    assert r[0] in keys;
    MostFrequentIsFirst(keys, counts);
    var i :| 0 <= i < |keys| && keys[i] == MostFrequentKey(keys, counts)
             && forall j :: 0 <= j < i ==> CountOf(counts, keys[j]) < CountOf(counts, keys[i]);
    FewerBefore(r, keys, i);
  }

  lemma FewerBefore(r: seq<int>, keys: seq<int>, i: nat)
    requires i < |keys|
    requires forall j :: 0 <= j < i ==> CountOf(Seqs.CountMap(r), keys[j]) < CountOf(Seqs.CountMap(r), keys[i])
    ensures forall j :: 0 <= j < i ==> Seqs.Occ(r, keys[j]) < Seqs.Occ(r, keys[i])
  {
    forall j | 0 <= j < i ensures Seqs.Occ(r, keys[j]) < Seqs.Occ(r, keys[i]) {
      CountOfCountMap(r, keys[j]);
      CountOfCountMap(r, keys[i]);
    }
  }

  /** `CalculateMoodAnalyticsAsync`: the per-category totals, the three
      percentages and the most frequent mood. */
  method CalculateMoodAnalytics(moods: seq<Mood>, entries: seq<Entry>)
    returns (dist: map<MoodCategory, nat>, mostFrequent: Option<Mood>, positive: real, neutral: real, negative: real)
    ensures forall c :: c in dist && dist[c] == MoodCount(moods, entries, c)
    ensures var total := |CountedMoods(moods, entries)|;
            && positive == Percentage(dist[Positive], total)
            && neutral == Percentage(dist[Neutral], total)
            && negative == Percentage(dist[Negative], total)
    ensures mostFrequent == MostFrequentMood(moods, entries)
  {
    var keys, counts := CountMoods(moods, entries);
    KeysCounted(CountedMoods(moods, entries));
    dist := Distribute(moods, keys, counts);
    forall c ensures dist[c] == MoodCount(moods, entries, c) {
      DistributionCountsSlots(moods, entries, c);
    }
    var total := dist[Positive] + dist[Neutral] + dist[Negative];
    DistributionTotal(moods, entries);
    assert total == |CountedMoods(moods, entries)|;
    positive, neutral, negative := 0.0, 0.0, 0.0;
    if total > 0 {
      positive := Percentage(dist[Positive], total);
      neutral := Percentage(dist[Neutral], total);
      negative := Percentage(dist[Negative], total);
    }
    mostFrequent := None;
    if |keys| > 0 {
      var mostFrequentId := Ranked(keys, counts)[0];
      mostFrequent := FindMood(moods, mostFrequentId);
    }
  }

  // ---------------------------------------------------------------- tags

  datatype TagStatistic = TagStatistic(tagName: string, count: nat, percentage: real)

  /** Every tag name the counting loop sees, entry by entry; `tagsOf` gives the
      names of the tags attached to an entry id. */
  function TagUses(tagsOf: int -> seq<string>, entries: seq<Entry>): seq<string> {
    if |entries| == 0 then []
    else TagUses(tagsOf, entries[..|entries| - 1]) + tagsOf(entries[|entries| - 1].id)
  }

  lemma TagUsesStep(tagsOf: int -> seq<string>, entries: seq<Entry>, i: int)
    requires 0 <= i < |entries|
    ensures TagUses(tagsOf, entries[..i + 1]) == TagUses(tagsOf, entries[..i]) + tagsOf(entries[i].id)
  {
    assert entries[..i + 1][..i] == entries[..i];
  }

  /** The inner loop over one entry's tags: counts each of its names. */
  method CountEntryTags<K(==,!new)>(keys: seq<K>, counts: map<K, nat>, tags: seq<K>, ghost before: seq<K>)
    returns (keys': seq<K>, counts': map<K, nat>)
    requires keys == Seqs.Dedup(before) && counts == Seqs.CountMap(before)
    ensures keys' == Seqs.Dedup(before + tags) && counts' == Seqs.CountMap(before + tags)
  {
    keys', counts' := keys, counts;
    var j := 0;
    while j < |tags|
      invariant 0 <= j <= |tags|
      invariant keys' == Seqs.Dedup(SeenAfter(before, tags, j)) && counts' == Seqs.CountMap(SeenAfter(before, tags, j))
    {
      keys', counts' := Tally(keys', counts', tags[j], SeenAfter(before, tags, j));
      j := j + 1;
    }
    SeenAfterIsPrefix(before, tags, |tags|);
    assert tags[..|tags|] == tags;
  }

  /** The keys counted after `j` steps of the inner loop, one step at a time. */
  function SeenAfter<K>(before: seq<K>, tags: seq<K>, j: nat): seq<K>
    requires j <= |tags|
  {
    if j == 0 then before else SeenAfter(before, tags, j - 1) + [tags[j - 1]]
  }

  lemma {:induction false} SeenAfterIsPrefix<K>(before: seq<K>, tags: seq<K>, j: nat)
    requires j <= |tags|
    ensures SeenAfter(before, tags, j) == before + tags[..j]
  {
    if j > 0 {
      SeenAfterIsPrefix(before, tags, j - 1);
      assert tags[..j] == tags[..j - 1] + [tags[j - 1]];
    }
  }

  /** The tag counting loop: the dictionary from tag name to the number of
      uses, keys in first-seen order. */
  method CountTags(tagsOf: int -> seq<string>, entries: seq<Entry>) returns (keys: seq<string>, counts: map<string, nat>)
    ensures keys == Seqs.Dedup(TagUses(tagsOf, entries))
    ensures counts == Seqs.CountMap(TagUses(tagsOf, entries))
  {
    keys, counts := [], map[];
    var i := 0;
    while i < |entries|
      invariant 0 <= i <= |entries|
      invariant keys == Seqs.Dedup(TagUses(tagsOf, entries[..i]))
      invariant counts == Seqs.CountMap(TagUses(tagsOf, entries[..i]))
    {
      var tags := tagsOf(entries[i].id);
      keys, counts := CountEntryTags(keys, counts, tags, TagUses(tagsOf, entries[..i]));
      TagUsesStep(tagsOf, entries, i);
      i := i + 1;
    }
    assert entries[..|entries|] == entries;
  }

  function Always<K>(): K -> bool {
    _ => true
  }

  /** The sum of the dictionary's counts is the number of tag uses. */
  lemma TotalTagUses(uses: seq<string>)
    ensures Seqs.SumWhere(Seqs.Dedup(uses), Seqs.CountMap(uses), Always()) == |uses|
  {
    Seqs.CountMapSum(uses, Always());
    Seqs.WhereAll(uses, Always());
  }

  /** `OrderByDescending(count).Take(10).Select(new TagStatistic ...)`. */
  function MostUsedTags(keys: seq<string>, counts: map<string, nat>, total: nat): seq<TagStatistic> {
    var top := Ranked(keys, counts)[..Seqs.MinNat(10, |keys|)];
    seq(|top|, i requires 0 <= i < |top| => TagStatistic(top[i], CountOf(counts, top[i]), Percentage(CountOf(counts, top[i]), total)))
  }

  /** At most ten names, each a counted name with its own count and percentage. */
  lemma MostUsedTagsEntries(keys: seq<string>, counts: map<string, nat>, total: nat)
    ensures var r := MostUsedTags(keys, counts, total);
      && |r| == Seqs.MinNat(10, |keys|)
      && forall i :: 0 <= i < |r| ==> r[i].tagName in keys && r[i].count == CountOf(counts, r[i].tagName)
                                      && r[i].percentage == Percentage(r[i].count, total)
  {
    var r := MostUsedTags(keys, counts, total);
    forall i | 0 <= i < |r| ensures r[i].tagName in keys {
      RankedMembers(keys, counts, Ranked(keys, counts)[i]);
    }
  }

  /** Counts never increase along the list, and no name is listed twice. */
  lemma MostUsedTagsOrdered(keys: seq<string>, counts: map<string, nat>, total: nat)
    requires Seqs.NoDup(keys)
    ensures var r := MostUsedTags(keys, counts, total);
      forall i, j :: 0 <= i < j < |r| ==> r[i].tagName != r[j].tagName && r[i].count >= r[j].count
  {
    var r := MostUsedTags(keys, counts, total);
    Seqs.PermutationNoDup(keys, Ranked(keys, counts));
    forall i, j | 0 <= i < j < |r| ensures r[i].count >= r[j].count {
      RankedDescends(keys, counts, i, j);
    }
  }

  /** A counted name left off the list was used no more often than any name on it. */
  lemma MostUsedTagsOmitNoLarger(keys: seq<string>, counts: map<string, nat>, total: nat, k: string)
    requires k in keys
    ensures var r := MostUsedTags(keys, counts, total);
      (forall i :: 0 <= i < |r| ==> r[i].tagName != k) ==> forall i :: 0 <= i < |r| ==> CountOf(counts, k) <= r[i].count
  {
    var r := MostUsedTags(keys, counts, total);
    var ranked := Ranked(keys, counts);
    RankedMembers(keys, counts, k);
    var j :| 0 <= j < |ranked| && ranked[j] == k;
    if j < |r| {
      assert r[j].tagName == k;
    }
    if forall i :: 0 <= i < |r| ==> r[i].tagName != k {
      forall i | 0 <= i < |r| ensures CountOf(counts, k) <= r[i].count {
        RankedDescends(keys, counts, i, j);
      }
    }
  }

  /** `CalculateTagAnalyticsAsync`: the top-ten ranking and the full breakdown. */
  method CalculateTagAnalytics(tagsOf: int -> seq<string>, entries: seq<Entry>)
    returns (mostUsed: seq<TagStatistic>, breakdown: map<string, nat>)
    ensures var uses := TagUses(tagsOf, entries);
            && breakdown == Seqs.CountMap(uses)
            && mostUsed == MostUsedTags(Seqs.Dedup(uses), breakdown, |uses|)
  {
    var keys, counts := CountTags(tagsOf, entries);
    var totalTags := Seqs.SumWhere(keys, counts, Always());
    TotalTagUses(TagUses(tagsOf, entries));
    mostUsed := MostUsedTags(keys, counts, totalTags);
    breakdown := counts;
  }

  // ---------------------------------------------------------------- words

  datatype WordCountTrend = WordCountTrend(date: Day, wordCount: nat)

  function TotalWords(wordCount: Entry -> nat, entries: seq<Entry>): nat {
    if |entries| == 0 then 0
    else TotalWords(wordCount, entries[..|entries| - 1]) + wordCount(entries[|entries| - 1])
  }

  /** `entries.Average(e => e.WordCount)`, left at 0 for no entries. */
  function AverageWordCount(wordCount: Entry -> nat, entries: seq<Entry>): real {
    if |entries| == 0 then 0.0 else TotalWords(wordCount, entries) as real / |entries| as real
  }

  lemma {:induction false} TotalWordsBounds(wordCount: Entry -> nat, entries: seq<Entry>, lo: nat, hi: nat)
    requires forall i :: 0 <= i < |entries| ==> lo <= wordCount(entries[i]) <= hi
    ensures |entries| * lo <= TotalWords(wordCount, entries) <= |entries| * hi
  {
    if |entries| > 0 {
      TotalWordsBounds(wordCount, entries[..|entries| - 1], lo, hi);
      assert (|entries| - 1) * lo + lo == |entries| * lo;
      assert (|entries| - 1) * hi + hi == |entries| * hi;
    }
  }

  /** The average lies between the smallest and the largest word count. */
  lemma AverageWithinBounds(wordCount: Entry -> nat, entries: seq<Entry>, lo: nat, hi: nat)
    requires |entries| > 0
    requires forall i :: 0 <= i < |entries| ==> lo <= wordCount(entries[i]) <= hi
    ensures lo as real <= AverageWordCount(wordCount, entries) <= hi as real
  {
    TotalWordsBounds(wordCount, entries, lo, hi);
    QuotientBounds(TotalWords(wordCount, entries), |entries|, lo, hi);
  }

  lemma QuotientBounds(t: nat, n: nat, lo: nat, hi: nat)
    requires n > 0 && n * lo <= t <= n * hi
    ensures lo as real <= t as real / n as real <= hi as real
  {
    assert (n * lo) as real == n as real * lo as real;
    assert (n * hi) as real == n as real * hi as real;
  }

  function ByDate(): Entry -> int {
    (e: Entry) => e.date
  }

  /** `entries.OrderBy(e => e.Date).Select(e => new WordCountTrend ...)`. */
  function WordCountTrends(wordCount: Entry -> nat, entries: seq<Entry>): seq<WordCountTrend> {
    var sorted := Seqs.SortBy(entries, ByDate());
    seq(|sorted|, i requires 0 <= i < |sorted| => WordCountTrend(sorted[i].date, wordCount(sorted[i])))
  }

  /** One point per entry, ascending by date. */
  lemma WordCountTrendsOrdered(wordCount: Entry -> nat, entries: seq<Entry>)
    ensures var r := WordCountTrends(wordCount, entries);
      && |r| == |entries|
      && (forall i, j :: 0 <= i < j < |r| ==> r[i].date <= r[j].date)
  {
    var sorted := Seqs.SortBy(entries, ByDate());
    var r := WordCountTrends(wordCount, entries);
    forall i, j | 0 <= i < j < |r| ensures r[i].date <= r[j].date {
      assert ByDate()(sorted[i]) <= ByDate()(sorted[j]);
    }
  }

  /** Each point is an entry's date and word count. */
  lemma WordCountTrendsPoints(wordCount: Entry -> nat, entries: seq<Entry>)
    ensures var r := WordCountTrends(wordCount, entries);
      forall i :: 0 <= i < |r| ==> exists e :: e in entries && r[i] == WordCountTrend(e.date, wordCount(e))
  {
    var sorted := Seqs.SortBy(entries, ByDate());
    var r := WordCountTrends(wordCount, entries);
    forall i | 0 <= i < |r| ensures exists e :: e in entries && r[i] == WordCountTrend(e.date, wordCount(e)) {
      assert sorted[i] in multiset(entries);
      assert r[i] == WordCountTrend(sorted[i].date, wordCount(sorted[i]));
    }
  }

  /** Every entry has its point. */
  lemma WordCountTrendsCover(wordCount: Entry -> nat, entries: seq<Entry>)
    ensures forall e :: e in entries ==> WordCountTrend(e.date, wordCount(e)) in WordCountTrends(wordCount, entries)
  {
    var sorted := Seqs.SortBy(entries, ByDate());
    var r := WordCountTrends(wordCount, entries);
    forall e | e in entries ensures WordCountTrend(e.date, wordCount(e)) in r {
      assert e in multiset(sorted);
      var j :| 0 <= j < |sorted| && sorted[j] == e;
      assert r[j] == WordCountTrend(e.date, wordCount(e));
    }
  }

  /** `CalculateWordCountAnalytics`: both figures stay at their defaults
      (0 and no points) when there are no entries. */
  method CalculateWordCountAnalytics(wordCount: Entry -> nat, entries: seq<Entry>) returns (average: real, trends: seq<WordCountTrend>)
    ensures average == AverageWordCount(wordCount, entries)
    ensures trends == WordCountTrends(wordCount, entries)
  {
    average, trends := 0.0, [];
    if |entries| > 0 {
      average := TotalWords(wordCount, entries) as real / |entries| as real;
      trends := WordCountTrends(wordCount, entries);
    }
  }

  // ---------------------------------------------------------------- result

  datatype AnalyticsData = AnalyticsData(
    currentStreak: nat,
    longestStreak: nat,
    totalEntries: nat,
    missedDays: int,
    moodDistribution: map<MoodCategory, nat>,
    mostFrequentMood: Option<Mood>,
    positivePercentage: real,
    neutralPercentage: real,
    negativePercentage: real,
    mostUsedTags: seq<TagStatistic>,
    tagBreakdown: map<string, nat>,
    averageWordCount: real,
    wordCountTrends: seq<WordCountTrend>)

  /** What `GetAnalyticsAsync` promises about its result: every figure is
      computed over the entries in the window. */
  predicate IsAnalyticsOf(a: AnalyticsData, allEntries: seq<Entry>, start: Option<Day>, end: Option<Day>, today: Day,
                          moods: seq<Mood>, tagsOf: int -> seq<string>, wordCount: Entry -> nat)
  {
    var w := Window(allEntries, start, end);
    && a.totalEntries == |w|
    && a.currentStreak == Streaks.CurrentStreak(Dates(w), today)
    && (|w| == 0 ==> a.longestStreak == 0)
    && (|w| > 0 ==> Streaks.IsLongestRun(Dates(w), a.longestStreak))
    && a.missedDays == Streaks.MissedDays(Dates(w), today)
    && (forall c :: c in a.moodDistribution && a.moodDistribution[c] == MoodCount(moods, w, c))
    && a.mostFrequentMood == MostFrequentMood(moods, w)
    && a.positivePercentage == Percentage(MoodCount(moods, w, Positive), |CountedMoods(moods, w)|)
    && a.neutralPercentage == Percentage(MoodCount(moods, w, Neutral), |CountedMoods(moods, w)|)
    && a.negativePercentage == Percentage(MoodCount(moods, w, Negative), |CountedMoods(moods, w)|)
    && a.tagBreakdown == Seqs.CountMap(TagUses(tagsOf, w))
    && a.mostUsedTags == MostUsedTags(Seqs.Dedup(TagUses(tagsOf, w)), a.tagBreakdown, |TagUses(tagsOf, w)|)
    && a.averageWordCount == AverageWordCount(wordCount, w)
    && a.wordCountTrends == WordCountTrends(wordCount, w)
  }

  /** `GetAnalyticsAsync`: filters by the window, then fills every figure. */
  method GetAnalytics(allEntries: seq<Entry>, start: Option<Day>, end: Option<Day>, today: Day,
                      moods: seq<Mood>, tagsOf: int -> seq<string>, wordCount: Entry -> nat)
    returns (a: AnalyticsData)
    ensures IsAnalyticsOf(a, allEntries, start, end, today, moods, tagsOf, wordCount)
  {
    var entries := allEntries;
    if start.Some? {
      entries := Seqs.Where(entries, (e: Entry) => e.date >= start.value);
    }
    if end.Some? {
      entries := Seqs.Where(entries, (e: Entry) => e.date <= end.value);
    }
    assert entries == Window(allEntries, start, end);
    var current, longest, missed := Streaks.CalculateStreaks(Dates(entries), today);
    var dist, mostFrequent, positive, neutral, negative := CalculateMoodAnalytics(moods, entries);
    var mostUsed, breakdown := CalculateTagAnalytics(tagsOf, entries);
    var average, trends := CalculateWordCountAnalytics(wordCount, entries);
    a := AnalyticsData(current, longest, |entries|, missed, dist, mostFrequent, positive, neutral, negative,
                       mostUsed, breakdown, average, trends);
  }
}
