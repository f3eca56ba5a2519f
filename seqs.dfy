/** The LINQ and collection operations the core is written with, as functions
    over sequences, and the counting dictionaries it builds. */
module Seqs {
  import opened Wrappers

  predicate NoDup<T(==)>(s: seq<T>) {
    forall i, j :: 0 <= i < j < |s| ==> s[i] != s[j]
  }

  /** LINQ `Where`: the elements that satisfy `p`, in their order. */
  function Where<T(==,!new)>(s: seq<T>, p: T -> bool): (r: seq<T>)
    ensures |r| <= |s|
    ensures forall x :: x in r <==> x in s && p(x)
  {
    if |s| == 0 then []
    else Where(s[..|s| - 1], p) + (if p(s[|s| - 1]) then [s[|s| - 1]] else [])
  }

  lemma WhereAppend<T(!new)>(s: seq<T>, y: T, p: T -> bool)
    ensures Where(s + [y], p) == Where(s, p) + (if p(y) then [y] else [])
  {
    assert (s + [y])[..|s|] == s;
  }

  lemma {:induction false} WhereConcat<T(!new)>(s: seq<T>, t: seq<T>, p: T -> bool)
    ensures Where(s + t, p) == Where(s, p) + Where(t, p)
  {
    if t != [] {
      var init := t[..|t| - 1];
      assert s + t == (s + init) + [t[|t| - 1]];
      assert t == init + [t[|t| - 1]];
      WhereConcat(s, init, p);
      WhereAppend(s + init, t[|t| - 1], p);
      WhereAppend(init, t[|t| - 1], p);
    } else {
      assert s + t == s;
    }
  }

  /** When `p` agrees on every element, `Where` keeps all of them or none. */
  lemma {:induction false} WhereUniform<T(!new)>(s: seq<T>, p: T -> bool)
    requires s != [] && forall i :: 0 <= i < |s| ==> p(s[i]) == p(s[0])
    ensures Where(s, p) == if p(s[0]) then s else []
  {
    if p(s[0]) {
      WhereAll(s, p);
    } else {
      WhereNone(s, p);
    }
  }

  /** `Where` only looks at the condition on the elements it is given. */
  lemma {:induction false} WhereSameCondition<T(!new)>(s: seq<T>, p: T -> bool, q: T -> bool)
    requires forall i :: 0 <= i < |s| ==> p(s[i]) == q(s[i])
    ensures Where(s, p) == Where(s, q)
  {
    if |s| > 0 {
      WhereSameCondition(s[..|s| - 1], p, q);
    }
  }

  /** A condition every element meets keeps the whole list. */
  lemma {:induction false} WhereAll<T(!new)>(s: seq<T>, p: T -> bool)
    requires forall i :: 0 <= i < |s| ==> p(s[i])
    ensures Where(s, p) == s
  {
    if |s| > 0 {
      WhereAll(s[..|s| - 1], p);
    }
  }

  /** A condition no element meets keeps nothing. */
  lemma {:induction false} WhereNone<T(!new)>(s: seq<T>, p: T -> bool)
    requires forall i :: 0 <= i < |s| ==> !p(s[i])
    ensures Where(s, p) == []
  {
    if |s| > 0 {
      WhereNone(s[..|s| - 1], p);
    }
  }

  /** Elements around `m` that fail the condition do not change what it keeps. */
  lemma WhereSandwich<T(!new)>(a: seq<T>, m: seq<T>, c: seq<T>, p: T -> bool)
    requires forall i :: 0 <= i < |a| ==> !p(a[i])
    requires forall i :: 0 <= i < |c| ==> !p(c[i])
    ensures Where(a + m + c, p) == Where(m, p)
  {
    WhereNone(a, p);
    WhereNone(c, p);
    WhereConcat(a, m, p);
    WhereConcat(a + m, c, p);
  }

  /** The conjunction of two conditions. */
  function Both<T>(p: T -> bool, q: T -> bool): T -> bool {
    x => p(x) && q(x)
  }

  /** Filtering twice is filtering once by both conditions. */
  lemma {:induction false} WhereWhere<T(!new)>(s: seq<T>, p: T -> bool, q: T -> bool)
    ensures Where(Where(s, p), q) == Where(s, Both(p, q))
  {
    if |s| > 0 {
      var init, y := s[..|s| - 1], s[|s| - 1];
      assert s == init + [y];
      WhereWhere(init, p, q);
      WhereAppend(init, y, p);
      WhereAppend(init, y, Both(p, q));
      if p(y) {
        WhereAppend(Where(init, p), y, q);
      } else {
        assert Where(s, p) == Where(init, p);
      }
    }
  }

  /** When every element satisfies exactly one of three conditions, the three
      filtered lists together are as long as the list. */
  lemma {:induction false} WherePartition<T(!new)>(s: seq<T>, p: T -> bool, q: T -> bool, r: T -> bool)
    requires forall i :: 0 <= i < |s| ==> (if p(s[i]) then 1 else 0) + (if q(s[i]) then 1 else 0) + (if r(s[i]) then 1 else 0) == 1
    ensures |Where(s, p)| + |Where(s, q)| + |Where(s, r)| == |s|
  {
    if |s| > 0 {
      var init, y := s[..|s| - 1], s[|s| - 1];
      assert s == init + [y];
      WherePartition(init, p, q, r);
      WhereAppend(init, y, p);
      WhereAppend(init, y, q);
      WhereAppend(init, y, r);
    }
  }

  lemma AppendAssoc<T>(a: seq<T>, b: seq<T>, c: seq<T>)
    ensures a + b + c == a + (b + c)
  {
  }

  lemma TakeMultiset<T>(s: seq<T>, k: nat)
    requires k <= |s|
    ensures multiset(s[..k]) <= multiset(s)
  {
    assert s == s[..k] + s[k..];
  }

  /** In a sorted list, whatever lies outside a prefix has a key at least as
      large as everything inside it. */
  lemma SortedPrefix<T>(s: seq<T>, key: T -> int, k: nat, x: T, y: T)
    requires SortedBy(s, key) && k <= |s|
    requires x in s && x !in s[..k] && y in s[..k]
    ensures key(y) <= key(x)
  {
    var j :| 0 <= j < |s| && s[j] == x;
    var i :| 0 <= i < k && s[..k][i] == y;
    assert j >= k by {
      assert forall t :: 0 <= t < k ==> s[t] == s[..k][t];
    }
  }

  /** Number of occurrences of `x` in `s`. */
  function Occ<T(==)>(s: seq<T>, x: T): (n: nat)
    ensures n <= |s|
    ensures n > 0 <==> x in s
  {
    if |s| == 0 then 0
    else Occ(s[..|s| - 1], x) + (if s[|s| - 1] == x then 1 else 0)
  }

  lemma {:induction false} OccAbsent<T>(s: seq<T>, x: T)
    requires x !in s
    ensures Occ(s, x) == 0
  {
    if |s| > 0 {
      OccAbsent(s[..|s| - 1], x);
    }
  }

  lemma {:induction false} OccConcat<T>(s: seq<T>, t: seq<T>, x: T)
    ensures Occ(s + t, x) == Occ(s, x) + Occ(t, x)
  {
    if |t| > 0 {
      OccConcat(s, t[..|t| - 1], x);
      assert (s + t)[..|s + t| - 1] == s + t[..|t| - 1];
    } else {
      assert s + t == s;
    }
  }

  lemma OccAppend<T>(s: seq<T>, y: T, x: T)
    ensures Occ(s + [y], x) == Occ(s, x) + (if y == x then 1 else 0)
  {
    assert (s + [y])[..|s|] == s;
  }

  /** LINQ `Distinct`, which keeps the first occurrence of every element;
      also the key order of a dictionary filled from `s` (.NET enumerates a
      dictionary that never had a key removed in insertion order). */
  function Dedup<T(==,!new)>(s: seq<T>): (r: seq<T>)
    ensures NoDup(r)
    ensures forall x :: x in r <==> x in s
    ensures |r| <= |s|
  {
    if |s| == 0 then []
    else
      var init := Dedup(s[..|s| - 1]);
      if s[|s| - 1] in s[..|s| - 1] then init else init + [s[|s| - 1]]
  }

  lemma DedupAppend<T(!new)>(s: seq<T>, y: T)
    ensures Dedup(s + [y]) == if y in s then Dedup(s) else Dedup(s) + [y]
  {
    assert (s + [y])[..|s|] == s;
  }

  /** The dictionary of occurrence counts of the elements of `s`, filled in
      the order of `s` (`if (!d.ContainsKey(k)) d[k] = 0; d[k]++;`). */
  function CountMap<T(==,!new)>(s: seq<T>): map<T, nat> {
    if |s| == 0 then map[]
    else
      var m := CountMap(s[..|s| - 1]);
      var y := s[|s| - 1];
      m[y := (if y in m then m[y] else 0) + 1]
  }

  /** The dictionary has a key for each element and no other, and counts
      every occurrence of it. */
  lemma {:induction false} CountMapCounts<T(!new)>(s: seq<T>)
    ensures forall x :: x in CountMap(s) <==> x in s
    ensures forall x :: x in CountMap(s) ==> CountMap(s)[x] == Occ(s, x) && CountMap(s)[x] >= 1
  {
    if |s| > 0 {
      var init, y := s[..|s| - 1], s[|s| - 1];
      CountMapCounts(init);
      assert s == init + [y];
      forall x ensures Occ(s, x) == Occ(init, x) + (if x == y then 1 else 0) {
        OccAppend(init, y, x);
      }
    }
  }

  lemma CountMapAppend<T(!new)>(s: seq<T>, y: T)
    ensures CountMap(s + [y]) == CountMap(s)[y := (if y in CountMap(s) then CountMap(s)[y] else 0) + 1]
  {
    assert (s + [y])[..|s|] == s;
  }

  /** Sum of `m[k]` over the keys `k` of `ks` that satisfy `p` (LINQ `Sum`). */
  function SumWhere<K>(ks: seq<K>, m: map<K, nat>, p: K -> bool): nat {
    if |ks| == 0 then 0
    else
      var k := ks[|ks| - 1];
      SumWhere(ks[..|ks| - 1], m, p) + (if p(k) && k in m then m[k] else 0)
  }

  lemma SumWhereAppend<K>(ks: seq<K>, k: K, m: map<K, nat>, p: K -> bool)
    ensures SumWhere(ks + [k], m, p) == SumWhere(ks, m, p) + (if p(k) && k in m then m[k] else 0)
  {
    assert (ks + [k])[..|ks|] == ks;
  }

  /** Changing the map away from the keys summed over changes nothing. */
  lemma {:induction false} SumWhereFrame<K>(ks: seq<K>, m: map<K, nat>, m': map<K, nat>, p: K -> bool)
    requires forall k :: k in ks ==> (k in m <==> k in m') && (k in m ==> m[k] == m'[k])
    ensures SumWhere(ks, m, p) == SumWhere(ks, m', p)
  {
    if |ks| > 0 {
      SumWhereFrame(ks[..|ks| - 1], m, m', p);
    }
  }

  /** Adding one to the count of a key that is summed over exactly once adds one to the sum
      when the key is selected. */
  lemma {:induction false} SumWhereBump<K>(ks: seq<K>, m: map<K, nat>, m': map<K, nat>, y: K, p: K -> bool)
    requires NoDup(ks) && y in ks && y in m && y in m' && m'[y] == m[y] + 1
    requires forall k :: k in ks && k != y ==> (k in m <==> k in m') && (k in m ==> m[k] == m'[k])
    ensures SumWhere(ks, m', p) == SumWhere(ks, m, p) + (if p(y) then 1 else 0)
  {
    var init, k := ks[..|ks| - 1], ks[|ks| - 1];
    assert ks == init + [k];
    if k == y {
      assert y !in init;
      SumWhereFrame(init, m, m', p);
    } else {
      SumWhereBump(init, m, m', y, p);
    }
  }

  /** Summing a counting dictionary over its keys gives back the number of
      counted elements that satisfy `p`. */
  lemma {:induction false} CountMapSum<T(!new)>(s: seq<T>, p: T -> bool)
    ensures SumWhere(Dedup(s), CountMap(s), p) == |Where(s, p)|
  {
    if |s| > 0 {
      var init, y := s[..|s| - 1], s[|s| - 1];
      assert s == init + [y];
      CountMapSum(init, p);
      CountMapSumStep(init, y, p);
    }
  }

  lemma {:induction false} CountMapSumStep<T(!new)>(init: seq<T>, y: T, p: T -> bool)
    requires SumWhere(Dedup(init), CountMap(init), p) == |Where(init, p)|
    ensures SumWhere(Dedup(init + [y]), CountMap(init + [y]), p) == |Where(init + [y], p)|
  {
    WhereAppend(init, y, p);
    if y in init {
      CountedAgain(init, y, p);
    } else {
      CountedFirst(init, y, p);
    }
  }

  lemma {:induction false} CountedAgain<T(!new)>(init: seq<T>, y: T, p: T -> bool)
    requires y in init
    ensures SumWhere(Dedup(init + [y]), CountMap(init + [y]), p)
         == SumWhere(Dedup(init), CountMap(init), p) + (if p(y) then 1 else 0)
  {
    var m, m' := CountMap(init), CountMap(init + [y]);
    CountMapCounts(init);
    CountMapAppend(init, y);
    SumWhereBump(Dedup(init), m, m', y, p);
    DedupAppend(init, y);
  }

  lemma {:induction false} CountedFirst<T(!new)>(init: seq<T>, y: T, p: T -> bool)
    requires y !in init
    ensures SumWhere(Dedup(init + [y]), CountMap(init + [y]), p)
         == SumWhere(Dedup(init), CountMap(init), p) + (if p(y) then 1 else 0)
  {
    var m, m' := CountMap(init), CountMap(init + [y]);
    CountMapCounts(init);
    CountMapAppend(init, y);
    SumWhereFrame(Dedup(init), m, m', p);
    SumWhereAppend(Dedup(init), y, m', p);
    DedupAppend(init, y);
  }

  predicate SortedBy<T>(s: seq<T>, key: T -> int) {
    forall i, j :: 0 <= i < j < |s| ==> key(s[i]) <= key(s[j])
  }

  /** Inserts `x` before the first element whose key is not smaller. */
  function InsertBy<T>(x: T, s: seq<T>, key: T -> int): (r: seq<T>)
    requires SortedBy(s, key)
    ensures |r| == |s| + 1
    ensures multiset(r) == multiset(s) + multiset{x}
    ensures SortedBy(r, key)
  {
    if s == [] || key(x) <= key(s[0]) then [x] + s
    else
      var rest := InsertBy(x, s[1..], key);
      InsertBySortedStep(x, s, key, rest);
      [s[0]] + rest
  }

  lemma InsertBySortedStep<T>(x: T, s: seq<T>, key: T -> int, rest: seq<T>)
    requires SortedBy(s, key) && s != [] && key(s[0]) < key(x)
    requires multiset(rest) == multiset(s[1..]) + multiset{x} && SortedBy(rest, key)
    ensures multiset([s[0]] + rest) == multiset(s) + multiset{x}
    ensures SortedBy([s[0]] + rest, key)
  {
    assert s == [s[0]] + s[1..];
    forall i | 0 <= i < |rest| ensures key(s[0]) <= key(rest[i]) {
      assert rest[i] in multiset(rest);
      if rest[i] != x {
        assert rest[i] in multiset(s[1..]);
      }
    }
  }

  /** LINQ `OrderBy(key)`: a stable sort by ascending key. `OrderByDescending(key)`
      is the same sort by the negated key. */
  function SortBy<T>(s: seq<T>, key: T -> int): (r: seq<T>)
    ensures |r| == |s|
    ensures multiset(r) == multiset(s)
    ensures SortedBy(r, key)
  {
    if s == [] then []
    else
      assert s == [s[0]] + s[1..];
      InsertBy(s[0], SortBy(s[1..], key), key)
  }

  /** The elements of `s` whose key is `k`, in order. */
  function WithKey<T>(s: seq<T>, key: T -> int, k: int): seq<T> {
    if s == [] then [] else (if key(s[0]) == k then [s[0]] else []) + WithKey(s[1..], key, k)
  }

  lemma {:induction false} InsertByWithKey<T>(x: T, s: seq<T>, key: T -> int, k: int)
    requires SortedBy(s, key)
    ensures WithKey(InsertBy(x, s, key), key, k)
         == (if key(x) == k then [x] else []) + WithKey(s, key, k)
  {
    var r := InsertBy(x, s, key);
    if s == [] || key(x) <= key(s[0]) {
      assert r == [x] + s;
      assert r[1..] == s;
    } else {
      var rest := InsertBy(x, s[1..], key);
      assert r == [s[0]] + rest;
      assert r[1..] == rest;
      InsertByWithKey(x, s[1..], key, k);
      var tail := WithKey(s[1..], key, k);
      assert WithKey(r, key, k) == (if key(s[0]) == k then [s[0]] else []) + WithKey(rest, key, k);
      assert WithKey(s, key, k) == (if key(s[0]) == k then [s[0]] else []) + tail;
      if key(s[0]) == k {
        assert key(x) != k;
        assert WithKey(r, key, k) == [s[0]] + tail;
      } else if key(x) == k {
        assert WithKey(r, key, k) == [] + ([x] + tail);
      } else {
        assert WithKey(r, key, k) == [] + ([] + tail);
      }
    }
  }

  /** The sort is stable: elements with equal keys keep their relative order. */
  lemma {:induction false} SortByStable<T>(s: seq<T>, key: T -> int, k: int)
    ensures WithKey(SortBy(s, key), key, k) == WithKey(s, key, k)
  {
    if s != [] {
      SortByStable(s[1..], key, k);
      InsertByWithKey(s[0], SortBy(s[1..], key), key, k);
    }
  }

  /** The first element of `WithKey(s, key, k)` is the first element of `s` whose key is `k`. */
  lemma {:induction false} WithKeyHead<T>(s: seq<T>, key: T -> int, k: int)
    requires WithKey(s, key, k) != []
    ensures exists i :: 0 <= i < |s| && s[i] == WithKey(s, key, k)[0] && key(s[i]) == k
                        && forall j :: 0 <= j < i ==> key(s[j]) != k
  {
    if key(s[0]) != k {
      WithKeyHead(s[1..], key, k);
      var i :| 0 <= i < |s[1..]| && s[1..][i] == WithKey(s[1..], key, k)[0] && key(s[1..][i]) == k
               && forall j :: 0 <= j < i ==> key(s[1..][j]) != k;
      assert s[i + 1] == s[1..][i];
      forall j | 0 <= j < i + 1 ensures key(s[j]) != k {
        if j > 0 { assert s[j] == s[1..][j - 1]; }
      }
    }
  }

  lemma {:induction false} NoDupMultiplicity<T>(s: seq<T>, x: T)
    requires NoDup(s)
    ensures multiset(s)[x] <= 1
  {
    if s != [] {
      NoDupMultiplicity(s[1..], x);
      assert s == [s[0]] + s[1..];
      if s[0] == x {
        assert x !in s[1..];
      }
    }
  }

  /** A permutation of a list without duplicates has none either. */
  lemma PermutationNoDup<T>(s: seq<T>, t: seq<T>)
    requires multiset(s) == multiset(t) && NoDup(s)
    ensures NoDup(t)
  {
    forall i, j | 0 <= i < j < |t| ensures t[i] != t[j] {
      if t[i] == t[j] {
        assert t == t[..j] + [t[j]] + t[j + 1..];
        assert t[i] in t[..j];
        assert multiset(t)[t[j]] >= 2;
        NoDupMultiplicity(s, t[j]);
      }
    }
  }

  /** LINQ `Select(f)`: `f` applied to each element, in order. */
  function Select<T, U>(s: seq<T>, f: T -> U): (r: seq<U>)
    ensures |r| == |s|
    ensures forall i :: 0 <= i < |s| ==> r[i] == f(s[i])
  {
    seq(|s|, i requires 0 <= i < |s| => f(s[i]))
  }

  /** LINQ `FirstOrDefault(p)` over records: the first element satisfying
      `p`, or None. */
  function FirstWhere<T(==)>(s: seq<T>, p: T -> bool): (r: Option<T>)
    ensures r.None? <==> forall i :: 0 <= i < |s| ==> !p(s[i])
    ensures r.Some? ==> exists k :: 0 <= k < |s| && s[k] == r.value && p(r.value)
                                    && forall j :: 0 <= j < k ==> !p(s[j])
  {
    if s == [] then None
    else if p(s[0]) then Some(s[0])
    else
      var r := FirstWhere(s[1..], p);
      assert forall i :: 1 <= i < |s| ==> s[i] == s[1..][i - 1];
      if r.None? then r
      else
        var k :| 0 <= k < |s[1..]| && s[1..][k] == r.value && p(r.value)
                 && forall j :: 0 <= j < k ==> !p(s[1..][j]);
        assert s[k + 1] == r.value;
        r
  }

  /** `ObservableCollection.Remove`: drops the first occurrence of `x`, if any. */
  function RemoveFirst<T(==)>(s: seq<T>, x: T): (r: seq<T>)
    ensures multiset(r) == multiset(s) - multiset{x}
    ensures x !in s ==> r == s
    ensures x in s ==> |r| == |s| - 1
  {
    if s == [] then []
    else if s[0] == x then
      assert s == [s[0]] + s[1..];
      s[1..]
    else
      assert s == [s[0]] + s[1..];
      [s[0]] + RemoveFirst(s[1..], x)
  }

  /** Removing one occurrence keeps every other element. */
  lemma {:induction false} RemoveFirstMembers<T>(s: seq<T>, x: T)
    ensures forall y :: y in RemoveFirst(s, x) ==> y in s
    ensures forall y :: y in s && y != x ==> y in RemoveFirst(s, x)
  {
    if s != [] {
      assert s == [s[0]] + s[1..];
      if s[0] != x {
        RemoveFirstMembers(s[1..], x);
      }
    }
  }

  lemma {:induction false} RemoveFirstNoDup<T>(s: seq<T>, x: T)
    requires NoDup(s)
    ensures NoDup(RemoveFirst(s, x)) && x !in RemoveFirst(s, x)
  {
    if s != [] {
      assert s == [s[0]] + s[1..];
      assert NoDup(s[1..]);
      assert s[0] !in s[1..];
      if s[0] != x {
        RemoveFirstNoDup(s[1..], x);
        RemoveFirstMembers(s[1..], x);
        var rest := RemoveFirst(s[1..], x);
        assert s[0] !in rest;
        assert RemoveFirst(s, x) == [s[0]] + rest;
      }
    }
  }

  /** `if (c.Contains(x)) c.Remove(x); else c.Add(x);` */
  function Toggle<T(==)>(s: seq<T>, x: T): seq<T> {
    if x in s then RemoveFirst(s, x) else s + [x]
  }

  /** Toggling flips the membership of `x`, leaves every other element's
      membership alone and never creates a duplicate. */
  lemma ToggleFlips<T>(s: seq<T>, x: T)
    requires NoDup(s)
    ensures NoDup(Toggle(s, x))
    ensures x in Toggle(s, x) <==> x !in s
    ensures forall y :: y != x ==> (y in Toggle(s, x) <==> y in s)
  {
    if x in s {
      RemoveFirstNoDup(s, x);
      RemoveFirstMembers(s, x);
    }
  }

  lemma {:induction false} RemoveFirstLast<T>(s: seq<T>, x: T)
    requires x !in s
    ensures RemoveFirst(s + [x], x) == s
  {
    if s != [] {
      assert (s + [x])[1..] == s[1..] + [x];
      RemoveFirstLast(s[1..], x);
    }
  }

  /** Toggling the same element twice restores the original membership, and
      restores the sequence itself when the element was absent. */
  lemma ToggleTwice<T>(s: seq<T>, x: T)
    requires NoDup(s)
    ensures forall y :: y in Toggle(Toggle(s, x), x) <==> y in s
    ensures x !in s ==> Toggle(Toggle(s, x), x) == s
  {
    ToggleFlips(s, x);
    ToggleFlips(Toggle(s, x), x);
    if x !in s {
      RemoveFirstLast(s, x);
    }
  }

  function Min(s: seq<int>): (m: int)
    requires |s| > 0
    ensures m in s && forall x :: x in s ==> m <= x
  {
    if |s| == 1 then s[0]
    else
      var rest := Min(s[1..]);
      assert s == [s[0]] + s[1..];
      if s[0] <= rest then s[0] else rest
  }

  function Max(s: seq<int>): (m: int)
    requires |s| > 0
    ensures m in s && forall x :: x in s ==> x <= m
  {
    if |s| == 1 then s[0]
    else
      var rest := Max(s[1..]);
      assert s == [s[0]] + s[1..];
      if s[0] >= rest then s[0] else rest
  }

  function MinNat(a: nat, b: nat): nat {
    if a <= b then a else b
  }
}
