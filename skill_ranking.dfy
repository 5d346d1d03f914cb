/** The top-skills ranking of the "me" endpoint (pages/api/me.ts): a count per
    skill kept in first-seen order, a stable sort by descending count, and the
    first five entries. Everything here is over the list of skills of the
    completed sessions, in session order. */
module SkillRanking {

  /** One entry of `topSkillsUsage`: `{ skill, count }`. */
  datatype SkillUsage = SkillUsage(skill: string, count: nat)

  /** How many entries the ranking keeps. */
  const TopCount := 5

  /** The number of times `k` occurs in `xs`. */
  function Occurrences(xs: seq<string>, k: string): nat {
    if xs == [] then 0
    else Occurrences(xs[..|xs| - 1], k) + (if xs[|xs| - 1] == k then 1 else 0)
  }

  /** The distinct elements of `xs` in order of first occurrence: the order in
      which a plain object enumerates keys it gained one by one. */
  function Dedup(xs: seq<string>): seq<string> {
    if xs == [] then []
    else
      var d := Dedup(xs[..|xs| - 1]);
      if xs[|xs| - 1] in d then d else d + [xs[|xs| - 1]]
  }

  /** The skills of a list of entries. */
  function Skills(t: seq<SkillUsage>): seq<string> {
    seq(|t|, i requires 0 <= i < |t| => t[i].skill)
  }

  predicate DistinctSkills(t: seq<SkillUsage>) {
    forall i, j :: 0 <= i < j < |t| ==> t[i].skill != t[j].skill
  }

  /** Counts non-increasing from front to back. */
  predicate NonIncreasing(t: seq<SkillUsage>) {
    forall i, j :: 0 <= i < j < |t| ==> t[i].count >= t[j].count
  }

  /** The sum of the counts of the entries. */
  function TotalCount(t: seq<SkillUsage>): nat {
    if t == [] then 0 else t[0].count + TotalCount(t[1..])
  }

  /** The entries whose count is `c`, in order. */
  function WithCount(t: seq<SkillUsage>, c: nat): seq<SkillUsage> {
    if t == [] then []
    else (if t[0].count == c then [t[0]] else []) + WithCount(t[1..], c)
  }

  /** `skillCounts[k] = (skillCounts[k] || 0) + 1`, on the object's entries
      in key order: an existing key is incremented in place, a new key is
      appended with count 1. */
  function Bump(t: seq<SkillUsage>, k: string): seq<SkillUsage> {
    if t == [] then [SkillUsage(k, 1)]
    else if t[0].skill == k then [SkillUsage(k, t[0].count + 1)] + t[1..]
    else [t[0]] + Bump(t[1..], k)
  }

  /** The entries of the count object after counting every skill of `xs`,
      in key order. */
  function Tally(xs: seq<string>): seq<SkillUsage> {
    if xs == [] then [] else Bump(Tally(xs[..|xs| - 1]), xs[|xs| - 1])
  }

  /** Counting one more skill bumps the tally. */
  lemma TallySnoc(xs: seq<string>, x: string)
    ensures Tally(xs + [x]) == Bump(Tally(xs), x)
  {
    assert (xs + [x])[..|xs|] == xs;
  }

  /** `sort((a, b) => b.count - a.count)`: a stable sort by descending count,
      here as an insertion sort. `Insert` puts `x` in front of the first entry
      whose count is not larger, so an entry that came first stays ahead of
      entries with the same count. */
  function Insert(x: SkillUsage, t: seq<SkillUsage>): seq<SkillUsage> {
    if t == [] || x.count >= t[0].count then [x] + t
    else [t[0]] + Insert(x, t[1..])
  }

  function SortByCount(t: seq<SkillUsage>): seq<SkillUsage> {
    if t == [] then [] else Insert(t[0], SortByCount(t[1..]))
  }

  function Min(a: int, b: int): int { if a <= b then a else b }

  /** `Object.entries(skillCounts).map(...).sort(...).slice(0, 5)`. */
  function Top(entries: seq<SkillUsage>): seq<SkillUsage> {
    var sorted := SortByCount(entries);
    sorted[..Min(TopCount, |sorted|)]
  }

  /** `topSkillsUsage` for the skills `xs` of the completed sessions. */
  function TopSkillsUsage(xs: seq<string>): seq<SkillUsage> {
    Top(Tally(xs))
  }

  // ---------------------------------------------------------------------
  // Counting

  lemma {:induction false} OccurrencesAbsent(xs: seq<string>, k: string)
    requires k !in xs
    ensures Occurrences(xs, k) == 0
  {
    if xs != [] {
      assert xs == xs[..|xs| - 1] + [xs[|xs| - 1]];
      OccurrencesAbsent(xs[..|xs| - 1], k);
    }
  }

  /** On entries with distinct skills, `Bump` increments the entry of `k`
      in place when there is one. */
  lemma {:induction false} BumpPresent(t: seq<SkillUsage>, k: string, p: nat)
    requires DistinctSkills(t)
    requires p < |t| && t[p].skill == k
    ensures Bump(t, k) == t[p := SkillUsage(k, t[p].count + 1)]
  {
    if p > 0 {
      assert DistinctSkills(t[1..]);
      BumpPresent(t[1..], k, p - 1);
    }
  }

  /** `Bump` appends `{ skill: k, count: 1 }` when `k` is not a key yet. */
  lemma {:induction false} BumpAbsent(t: seq<SkillUsage>, k: string)
    requires k !in Skills(t)
    ensures Bump(t, k) == t + [SkillUsage(k, 1)]
  {
    if t != [] {
      assert Skills(t)[0] == t[0].skill;
      assert k !in Skills(t[1..]) by {
        forall i | 0 <= i < |t| - 1 ensures Skills(t[1..])[i] != k {
          assert Skills(t)[i + 1] == t[i + 1].skill;
        }
      }
      BumpAbsent(t[1..], k);
    }
  }

  lemma {:induction false} TotalCountAppend(t: seq<SkillUsage>, u: seq<SkillUsage>)
    ensures TotalCount(t + u) == TotalCount(t) + TotalCount(u)
  {
    if t == [] {
      assert t + u == u;
    } else {
      assert (t + u)[0] == t[0] && (t + u)[1..] == t[1..] + u;
      TotalCountAppend(t[1..], u);
    }
  }

  lemma {:induction false} TotalCountUpdate(t: seq<SkillUsage>, p: nat, e: SkillUsage)
    requires p < |t|
    ensures TotalCount(t[p := e]) == TotalCount(t) - t[p].count + e.count
  {
    if p > 0 {
      assert t[p := e][1..] == t[1..][p - 1 := e];
      TotalCountUpdate(t[1..], p - 1, e);
    }
  }

  lemma {:induction false} LastSplit(xs: seq<string>, k: string)
    requires xs != []
    ensures xs == xs[..|xs| - 1] + [xs[|xs| - 1]]
    ensures k in xs <==> k in xs[..|xs| - 1] || k == xs[|xs| - 1]
  {
    assert xs == xs[..|xs| - 1] + [xs[|xs| - 1]];
  }

  /** Bumping an existing key keeps the keys and their order. */
  lemma BumpKeysPresent(t: seq<SkillUsage>, x: string)
    requires DistinctSkills(t) && x in Skills(t)
    ensures Skills(Bump(t, x)) == Skills(t) && DistinctSkills(Bump(t, x))
  {
    var p :| 0 <= p < |t| && Skills(t)[p] == x;
    BumpPresent(t, x, p);
    var t' := t[p := SkillUsage(x, t[p].count + 1)];
    forall i | 0 <= i < |t| ensures Skills(t')[i] == Skills(t)[i] {
    }
  }

  /** Bumping a new key appends it to the keys. */
  lemma BumpKeysAbsent(t: seq<SkillUsage>, x: string)
    requires DistinctSkills(t) && x !in Skills(t)
    ensures Skills(Bump(t, x)) == Skills(t) + [x] && DistinctSkills(Bump(t, x))
  {
    BumpAbsent(t, x);
    forall i | 0 <= i < |t| ensures t[i].skill != x {
      assert Skills(t)[i] == t[i].skill;
    }
    assert Skills(t + [SkillUsage(x, 1)]) == Skills(t) + [x];
  }

  /** The keys of the count object are the distinct skills of the list, in
      first-seen order. */
  lemma {:induction false} TallyKeys(xs: seq<string>)
    ensures Skills(Tally(xs)) == Dedup(xs)
    ensures DistinctSkills(Tally(xs))
    ensures forall k :: k in Dedup(xs) <==> k in xs
  {
    if xs != [] {
      var init, x := xs[..|xs| - 1], xs[|xs| - 1];
      forall k ensures k in xs <==> k in init || k == x { LastSplit(xs, k); }
      TallyKeys(init);
      var t := Tally(init);
      assert Tally(xs) == Bump(t, x);
      if x in Skills(t) {
        BumpKeysPresent(t, x);
      } else {
        BumpKeysAbsent(t, x);
      }
    }
  }

  /** Each key of the count object is counted as often as it occurs in the
      list, and the counts add up to the length of the list. */
  lemma {:induction false} TallyCounts(xs: seq<string>)
    ensures forall i :: 0 <= i < |Tally(xs)| ==>
      Tally(xs)[i].count == Occurrences(xs, Tally(xs)[i].skill) >= 1
    ensures TotalCount(Tally(xs)) == |xs|
  {
    if xs != [] {
      var init, x := xs[..|xs| - 1], xs[|xs| - 1];
      TallyCounts(init);
      TallyKeys(init);
      var t := Tally(init);
      assert Tally(xs) == Bump(t, x);
      if x in Skills(t) {
        var p :| 0 <= p < |t| && Skills(t)[p] == x;
        BumpPresent(t, x, p);
        TotalCountUpdate(t, p, SkillUsage(x, t[p].count + 1));
      } else {
        assert x !in init;
        OccurrencesAbsent(init, x);
        BumpAbsent(t, x);
        assert TotalCount([SkillUsage(x, 1)]) == 1;
        TotalCountAppend(t, [SkillUsage(x, 1)]);
      }
    }
  }

  // ---------------------------------------------------------------------
  // Sorting

  lemma {:induction false} WithCountAppend(t: seq<SkillUsage>, u: seq<SkillUsage>, c: nat)
    ensures WithCount(t + u, c) == WithCount(t, c) + WithCount(u, c)
  {
    if t == [] {
      assert t + u == u;
    } else {
      var head := if t[0].count == c then [t[0]] else [];
      assert (t + u)[0] == t[0] && (t + u)[1..] == t[1..] + u;
      assert WithCount(t + u, c) == head + WithCount(t[1..] + u, c);
      WithCountAppend(t[1..], u, c);
      assert WithCount(t, c) == head + WithCount(t[1..], c);
    }
  }

  /** Inserting adds exactly `x` to the multiset of entries and its count to
      the total. */
  lemma {:induction false} InsertPerm(x: SkillUsage, t: seq<SkillUsage>)
    ensures multiset(Insert(x, t)) == multiset(t) + multiset{x}
    ensures |Insert(x, t)| == |t| + 1
    ensures TotalCount(Insert(x, t)) == x.count + TotalCount(t)
  {
    if !(t == [] || x.count >= t[0].count) {
      InsertPerm(x, t[1..]);
      assert t == [t[0]] + t[1..];
    }
  }

  /** Inserting an entry under a bound into entries under that bound keeps
      every entry under it. */
  lemma {:induction false} InsertBounded(x: SkillUsage, t: seq<SkillUsage>, bound: nat)
    requires x.count <= bound
    requires forall i :: 0 <= i < |t| ==> t[i].count <= bound
    ensures forall j :: 0 <= j < |Insert(x, t)| ==> Insert(x, t)[j].count <= bound
  {
    if !(t == [] || x.count >= t[0].count) {
      InsertBounded(x, t[1..], bound);
      assert Insert(x, t) == [t[0]] + Insert(x, t[1..]);
    }
  }

  /** Inserting into a sorted list keeps it sorted. */
  lemma {:induction false} InsertSorted(x: SkillUsage, t: seq<SkillUsage>)
    requires NonIncreasing(t)
    ensures NonIncreasing(Insert(x, t))
  {
    if !(t == [] || x.count >= t[0].count) {
      var rest := Insert(x, t[1..]);
      InsertSorted(x, t[1..]);
      InsertBounded(x, t[1..], t[0].count);
      assert Insert(x, t) == [t[0]] + rest;
    }
  }

  /** Inserting never moves `x` past an entry of the same count: for every
      count, the entries of that count keep their order. */
  lemma {:induction false} InsertStable(x: SkillUsage, t: seq<SkillUsage>, c: nat)
    ensures WithCount(Insert(x, t), c) == WithCount([x] + t, c)
  {
    if !(t == [] || x.count >= t[0].count) {
      var rest := Insert(x, t[1..]);
      InsertStable(x, t[1..], c);
      assert Insert(x, t) == [t[0]] + rest;
      assert ([t[0]] + rest)[1..] == rest;
      assert ([x] + t)[1..] == t;
      assert ([x] + t[1..])[1..] == t[1..];
    }
  }

  /** The sort yields a non-increasing permutation that keeps, for every
      count, the entries of that count in their original order. */
  lemma {:induction false} SortByCountSpec(t: seq<SkillUsage>)
    ensures multiset(SortByCount(t)) == multiset(t)
    ensures |SortByCount(t)| == |t|
    ensures TotalCount(SortByCount(t)) == TotalCount(t)
    ensures NonIncreasing(SortByCount(t))
    ensures forall c :: WithCount(SortByCount(t), c) == WithCount(t, c)
  {
    if t != [] {
      var s := SortByCount(t[1..]);
      SortByCountSpec(t[1..]);
      InsertPerm(t[0], s);
      InsertSorted(t[0], s);
      assert t == [t[0]] + t[1..];
      forall c ensures WithCount(SortByCount(t), c) == WithCount(t, c) {
        InsertStable(t[0], s, c);
        assert ([t[0]] + s)[1..] == s;
      }
    }
  }

  lemma {:induction false} InsertDistinct(x: SkillUsage, t: seq<SkillUsage>)
    requires DistinctSkills(t)
    requires forall i :: 0 <= i < |t| ==> t[i].skill != x.skill
    ensures DistinctSkills(Insert(x, t))
  {
    if !(t == [] || x.count >= t[0].count) {
      assert DistinctSkills(t[1..]);
      InsertDistinct(x, t[1..]);
      var rest := Insert(x, t[1..]);
      InsertPerm(x, t[1..]);
      forall j | 0 <= j < |rest| ensures rest[j].skill != t[0].skill {
        assert rest[j] in multiset(rest);
        if rest[j] != x {
          assert rest[j] in multiset(t[1..]);
          var q :| 0 <= q < |t[1..]| && t[1..][q] == rest[j];
          assert t[q + 1] == rest[j];
        }
      }
      assert Insert(x, t) == [t[0]] + rest;
    }
  }

  lemma {:induction false} SortByCountDistinct(t: seq<SkillUsage>)
    requires DistinctSkills(t)
    ensures DistinctSkills(SortByCount(t))
  {
    if t != [] {
      assert DistinctSkills(t[1..]);
      SortByCountDistinct(t[1..]);
      SortByCountSpec(t[1..]);
      var s := SortByCount(t[1..]);
      forall i | 0 <= i < |s| ensures s[i].skill != t[0].skill {
        assert s[i] in multiset(s);
        assert s[i] in multiset(t[1..]);
        var q :| 0 <= q < |t[1..]| && t[1..][q] == s[i];
        assert t[q + 1] == s[i];
      }
      InsertDistinct(t[0], s);
    }
  }

  // ---------------------------------------------------------------------
  // The top five

  /** At most five entries, distinct skills, counts non-increasing, and each
      count the number of times its skill occurs. */
  lemma TopSkillsShape(xs: seq<string>)
    ensures |TopSkillsUsage(xs)| == Min(TopCount, |Dedup(xs)|)
    ensures DistinctSkills(TopSkillsUsage(xs))
    ensures NonIncreasing(TopSkillsUsage(xs))
    ensures forall i :: 0 <= i < |TopSkillsUsage(xs)| ==>
      TopSkillsUsage(xs)[i].skill in xs &&
      TopSkillsUsage(xs)[i].count == Occurrences(xs, TopSkillsUsage(xs)[i].skill)
  {
    var t := Tally(xs);
    TallyKeys(xs);
    TallyCounts(xs);
    SortByCountSpec(t);
    SortByCountDistinct(t);
    var s := SortByCount(t);
    var r := TopSkillsUsage(xs);
    forall i | 0 <= i < |r|
      ensures r[i].skill in xs && r[i].count == Occurrences(xs, r[i].skill)
    {
      assert r[i] == s[i];
      assert s[i] in multiset(s);
      assert s[i] in t;
      var q :| 0 <= q < |t| && t[q] == s[i];
      assert Skills(t)[q] == s[i].skill;
    }
  }

  /** An entry the top five leaves out is no larger than any kept entry. */
  lemma TopDropped(t: seq<SkillUsage>, e: SkillUsage)
    requires e in t && e !in Top(t)
    ensures |Top(t)| == TopCount
    ensures forall i :: 0 <= i < TopCount ==> e.count <= Top(t)[i].count
  {
    SortByCountSpec(t);
    var s := SortByCount(t);
    assert e in multiset(s);
    var j :| 0 <= j < |s| && s[j] == e;
    assert Top(t) == s[..Min(TopCount, |s|)];
  }

  /** A skill left out of the top five occurs no more often than the least
      frequent kept skill, and is only left out when five are kept. */
  lemma TopSkillsDropped(xs: seq<string>, k: string)
    requires k in xs
    requires k !in Skills(TopSkillsUsage(xs))
    ensures |TopSkillsUsage(xs)| == TopCount
    ensures forall i :: 0 <= i < TopCount ==> Occurrences(xs, k) <= TopSkillsUsage(xs)[i].count
  {
    var t := Tally(xs);
    TallyKeys(xs);
    TallyCounts(xs);
    var q :| 0 <= q < |t| && Skills(t)[q] == k;
    var r := TopSkillsUsage(xs);
    assert t[q] !in r by {
      assert forall i :: 0 <= i < |r| ==> Skills(r)[i] == r[i].skill;
    }
    TopDropped(t, t[q]);
  }

  /** Ties keep first-seen order: for every count, the kept entries with that
      count are the first ones of that count in the count object, whose key
      order is the order in which skills were first seen. */
  lemma TopSkillsTies(xs: seq<string>, c: nat)
    ensures Skills(Tally(xs)) == Dedup(xs)
    ensures |WithCount(TopSkillsUsage(xs), c)| <= |WithCount(Tally(xs), c)|
    ensures WithCount(TopSkillsUsage(xs), c) ==
      WithCount(Tally(xs), c)[..|WithCount(TopSkillsUsage(xs), c)|]
  {
    var t := Tally(xs);
    TallyKeys(xs);
    TallyCounts(xs);
    SortByCountSpec(t);
    var s := SortByCount(t);
    var n := Min(TopCount, |s|);
    assert s == s[..n] + s[n..];
    WithCountAppend(s[..n], s[n..], c);
  }

  /** With at most five distinct skills nothing is dropped, and the kept
      counts add up to the number of skills counted. */
  lemma TopSkillsTotal(xs: seq<string>)
    requires |Dedup(xs)| <= TopCount
    ensures TotalCount(TopSkillsUsage(xs)) == |xs|
  {
    var t := Tally(xs);
    TallyKeys(xs);
    TallyCounts(xs);
    SortByCountSpec(t);
    assert |t| == |Dedup(xs)|;
    assert TopSkillsUsage(xs) == SortByCount(t);
  }
}
