/** The comma-separated skills text of a profile and the list derived from it
    (pages/api/me.ts: `skills.split(',').map(s => s.trim()).filter(Boolean)`). */
module SkillsText {

  /** The characters `String.prototype.trim` removes: the ECMAScript
      WhiteSpace characters (tab, vertical tab, form feed, space, no-break
      space, byte order mark and the Unicode space separators) and the
      LineTerminator characters. */
  predicate IsJsSpace(c: char) {
    var n := c as int;
    n == 0x09 || n == 0x0A || n == 0x0B || n == 0x0C || n == 0x0D || n == 0x20 ||
    n == 0xA0 || n == 0x1680 || (0x2000 <= n <= 0x200A) || n == 0x2028 || n == 0x2029 ||
    n == 0x202F || n == 0x205F || n == 0x3000 || n == 0xFEFF
  }

  /** Leading white space removed: what is left is a suffix of `s`, the part
      removed is all white space, and what is left does not start with any. */
  function TrimStart(s: string): (r: string)
    ensures |r| <= |s| && r == s[|s| - |r|..]
    ensures forall i :: 0 <= i < |s| - |r| ==> IsJsSpace(s[i])
    ensures r != [] ==> !IsJsSpace(r[0])
  {
    if s != [] && IsJsSpace(s[0]) then TrimStart(s[1..]) else s
  }

  /** Trailing white space removed, symmetrically. */
  function TrimEnd(s: string): (r: string)
    ensures |r| <= |s| && r == s[..|r|]
    ensures forall i :: |r| <= i < |s| ==> IsJsSpace(s[i])
    ensures r != [] ==> !IsJsSpace(r[|r| - 1])
  {
    if s != [] && IsJsSpace(s[|s| - 1]) then TrimEnd(s[..|s| - 1]) else s
  }

  /** `r` is the part of `s` from position `a` on, with only white space
      before it and after it. */
  predicate CutAt(s: string, r: string, a: nat) {
    a + |r| <= |s| && r == s[a..a + |r|] &&
    (forall j :: 0 <= j < a ==> IsJsSpace(s[j])) && (forall j :: a + |r| <= j < |s| ==> IsJsSpace(s[j]))
  }

  /** `s.trim()`: no white space at either end, and no character that is
      not in `s`; `TrimCutsOnlySpace` shows that only surrounding white
      space is cut. */
  function Trim(s: string): (r: string)
    ensures |r| <= |s|
    ensures forall j :: 0 <= j < |r| ==> r[j] in s
    ensures r != [] ==> !IsJsSpace(r[0]) && !IsJsSpace(r[|r| - 1])
  {
    var front := TrimStart(s);
    var r := TrimEnd(front);
    forall j | 0 <= j < |r| ensures r[j] in s {
      var k := |s| - |front| + j;
      assert r[j] == front[j] == s[k];
    }
    r
  }

  /** What `trim` keeps is a contiguous part of `s`, with only white space
      cut off before and after it. */
  lemma TrimCutsOnlySpace(s: string)
    ensures exists a :: CutAt(s, Trim(s), a)
  {
    var front := TrimStart(s);
    var r := TrimEnd(front);
    var a := |s| - |front|;
    assert r == Trim(s);
    assert r == s[a..a + |r|] by {
      assert r == front[..|r|];
    }
    forall j | a + |r| <= j < |s| ensures IsJsSpace(s[j]) {
      assert s[j] == front[j - a];
    }
    assert CutAt(s, r, a);
  }

  /** Trimming a string that neither starts nor ends with white space leaves it as it is. */
  lemma TrimKeeps(s: string)
    requires s != [] ==> !IsJsSpace(s[0]) && !IsJsSpace(s[|s| - 1])
    ensures Trim(s) == s
  {
  }

  /** `s.split(d)` for a one-character separator: the pieces between the
      separators, at least one, none containing the separator. */
  function Split(s: string, d: char): (parts: seq<string>)
    ensures |parts| >= 1
    ensures forall i :: 0 <= i < |parts| ==> d !in parts[i]
  {
    if s == [] then [[]]
    else
      var rest := Split(s[1..], d);
      if s[0] == d then [[]] + rest
      else [[s[0]] + rest[0]] + rest[1..]
  }

  /** `parts.join(d)`. */
  function Join(parts: seq<string>, d: char): string {
    if parts == [] then []
    else if |parts| == 1 then parts[0]
    else parts[0] + [d] + Join(parts[1..], d)
  }

  /** Joining the pieces back with the separator gives the string that was split. */
  lemma {:induction false} JoinSplit(s: string, d: char)
    ensures Join(Split(s, d), d) == s
  {
    if s != [] {
      var rest := Split(s[1..], d);
      JoinSplit(s[1..], d);
      if s[0] == d {
        assert Split(s, d)[1..] == rest;
      } else if |rest| == 1 {
        assert Join(Split(s, d), d) == [s[0]] + rest[0];
      } else {
        assert Split(s, d)[1..] == rest[1..];
        assert Join(rest, d) == rest[0] + [d] + Join(rest[1..], d);
        assert Join(Split(s, d), d) == ([s[0]] + rest[0]) + [d] + Join(rest[1..], d);
      }
    }
  }

  lemma {:induction false} SplitPrefix(p: string, t: string, d: char)
    requires d !in p
    ensures Split(p + t, d) == [p + Split(t, d)[0]] + Split(t, d)[1..]
  {
    if p == [] {
      assert p + t == t;
      assert [] + Split(t, d)[0] == Split(t, d)[0];
      assert Split(t, d) == [Split(t, d)[0]] + Split(t, d)[1..];
    } else {
      assert (p + t)[0] == p[0] && (p + t)[1..] == p[1..] + t;
      SplitPrefix(p[1..], t, d);
      assert [p[0]] + (p[1..] + Split(t, d)[0]) == p + Split(t, d)[0];
    }
  }

  /** Splitting a join of pieces free of the separator gives the pieces back. */
  lemma {:induction false} SplitJoin(parts: seq<string>, d: char)
    requires |parts| >= 1
    requires forall i :: 0 <= i < |parts| ==> d !in parts[i]
    ensures Split(Join(parts, d), d) == parts
  {
    if |parts| == 1 {
      SplitPrefix(parts[0], [], d);
      assert Split([], d) == [[]];
      assert parts[0] + [] == parts[0];
    } else {
      var tail := Join(parts[1..], d);
      SplitJoin(parts[1..], d);
      assert Join(parts, d) == parts[0] + ([d] + tail);
      SplitPrefix(parts[0], [d] + tail, d);
      assert ([d] + tail)[0] == d && ([d] + tail)[1..] == tail;
      assert Split([d] + tail, d) == [[]] + parts[1..];
      assert parts[0] + [] == parts[0];
      assert parts == [parts[0]] + parts[1..];
    }
  }

  function TrimEach(parts: seq<string>): (r: seq<string>)
    ensures |r| == |parts|
    ensures forall i :: 0 <= i < |parts| ==> r[i] == Trim(parts[i])
  {
    if parts == [] then [] else [Trim(parts[0])] + TrimEach(parts[1..])
  }

  /** `.filter(Boolean)` on strings: the non-empty ones, in order. */
  function NonEmpty(parts: seq<string>): seq<string> {
    if parts == [] then []
    else (if parts[0] != [] then [parts[0]] else []) + NonEmpty(parts[1..])
  }

  /** A piece of the skills list as the parser leaves it: no comma, and no
      white space at either end. */
  predicate Clean(x: string) {
    ',' !in x && (x != [] ==> !IsJsSpace(x[0]) && !IsJsSpace(x[|x| - 1]))
  }

  lemma TrimClean(s: string)
    requires ',' !in s
    ensures Clean(Trim(s))
  {
    var r := Trim(s);
    forall j | 0 <= j < |r| ensures r[j] != ',' {
      assert r[j] in s;
    }
  }

  /** `NonEmpty` keeps clean pieces clean and drops the empty ones. */
  lemma {:induction false} NonEmptyClean(parts: seq<string>)
    requires forall i :: 0 <= i < |parts| ==> Clean(parts[i])
    ensures forall i :: 0 <= i < |NonEmpty(parts)| ==> Clean(NonEmpty(parts)[i]) && NonEmpty(parts)[i] != []
  {
    if parts != [] {
      NonEmptyClean(parts[1..]);
    }
  }

  /** The list of skills derived from the skills text. Every element is
      non-empty, has no white space at either end and contains no comma. */
  function ParseSkills(s: string): (r: seq<string>)
    ensures forall i :: 0 <= i < |r| ==> r[i] != [] && Clean(r[i])
  {
    var parts := Split(s, ',');
    var trimmed := TrimEach(parts);
    forall i | 0 <= i < |trimmed| ensures Clean(trimmed[i]) {
      TrimClean(parts[i]);
    }
    NonEmptyClean(trimmed);
    NonEmpty(trimmed)
  }

  /** An empty skills text yields an empty list. */
  lemma ParseSkillsEmpty()
    ensures ParseSkills([]) == []
  {
    assert Split([], ',') == [[]];
    assert TrimEach([[]]) == [[]];
  }

  /** The parser inverts the canonical way of writing a list of skills: the
      skills joined by commas come back unchanged, provided each is non-empty,
      has no comma and no white space at either end. */
  lemma ParseSkillsJoin(xs: seq<string>)
    requires forall i :: 0 <= i < |xs| ==> xs[i] != [] && Clean(xs[i])
    ensures ParseSkills(Join(xs, ',')) == xs
  {
    if xs == [] {
      ParseSkillsEmpty();
    } else {
      var joined := Join(xs, ',');
      SplitJoin(xs, ',');
      TrimEachKeeps(xs);
      NonEmptyAll(xs);
      assert ParseSkills(joined) == NonEmpty(TrimEach(Split(joined, ',')));
    }
  }

  lemma {:induction false} TrimEachKeeps(xs: seq<string>)
    requires forall i :: 0 <= i < |xs| ==> Clean(xs[i])
    ensures TrimEach(xs) == xs
  {
    if xs != [] {
      TrimKeeps(xs[0]);
      TrimEachKeeps(xs[1..]);
      assert xs == [xs[0]] + xs[1..];
    }
  }

  lemma {:induction false} NonEmptyAll(xs: seq<string>)
    requires forall i :: 0 <= i < |xs| ==> xs[i] != []
    ensures NonEmpty(xs) == xs
  {
    if xs != [] {
      NonEmptyAll(xs[1..]);
    }
  }
}
