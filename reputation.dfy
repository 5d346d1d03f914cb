/** The reputation figures the "me" endpoint computes from the current
    wallet's sessions and feedback (pages/api/me.ts, GET branch). */
module Reputation {
  import opened Js
  import opened SkillRanking

  /** A mentoring session as read from the store (only the fields used here). */
  datatype Session = Session(status: string, mentorWallet: string, learnerWallet: string, skill: string)

  /** A feedback record as read from the store. `rating` and `npsScore` are
      whole numbers, absent when the record has none. */
  datatype Feedback = Feedback(fromWallet: string, toWallet: string, rating: Option<int>,
                               npsScore: Option<int>, text: Option<string>, createdAt: string)

  /** One entry of `peerTestimonials`. */
  datatype Testimonial = Testimonial(text: string, timestamp: string, fromWallet: string)

  const CompletedStatus := "completed"

  predicate IsCompleted(s: Session) { s.status == CompletedStatus }

  // ---------------------------------------------------------------------
  // Session counts

  function SessionsCompleted(ss: seq<Session>): nat {
    if ss == [] then 0
    else SessionsCompleted(ss[..|ss| - 1]) + (if IsCompleted(ss[|ss| - 1]) then 1 else 0)
  }

  function SessionsGiven(ss: seq<Session>, wallet: string): nat {
    if ss == [] then 0
    else
      var s := ss[|ss| - 1];
      SessionsGiven(ss[..|ss| - 1], wallet) + (if s.mentorWallet == wallet && IsCompleted(s) then 1 else 0)
  }

  function SessionsReceived(ss: seq<Session>, wallet: string): nat {
    if ss == [] then 0
    else
      var s := ss[|ss| - 1];
      SessionsReceived(ss[..|ss| - 1], wallet) + (if s.learnerWallet == wallet && IsCompleted(s) then 1 else 0)
  }

  /** The skills of the completed sessions, in session order. */
  function CompletedSkills(ss: seq<Session>): seq<string> {
    if ss == [] then []
    else CompletedSkills(ss[..|ss| - 1]) + (if IsCompleted(ss[|ss| - 1]) then [ss[|ss| - 1].skill] else [])
  }

  /** Sessions given and received are both among the completed ones, and
      there is one completed skill per completed session. */
  lemma {:induction false} SessionCountsBounded(ss: seq<Session>, wallet: string)
    ensures SessionsGiven(ss, wallet) <= SessionsCompleted(ss)
    ensures SessionsReceived(ss, wallet) <= SessionsCompleted(ss)
    ensures |CompletedSkills(ss)| == SessionsCompleted(ss)
  {
    if ss != [] {
      SessionCountsBounded(ss[..|ss| - 1], wallet);
    }
  }

  /** A session that is not completed changes none of the counts. */
  lemma OnlyCompletedCount(ss: seq<Session>, s: Session, wallet: string)
    requires !IsCompleted(s)
    ensures SessionsCompleted(ss + [s]) == SessionsCompleted(ss)
    ensures SessionsGiven(ss + [s], wallet) == SessionsGiven(ss, wallet)
    ensures SessionsReceived(ss + [s], wallet) == SessionsReceived(ss, wallet)
    ensures CompletedSkills(ss + [s]) == CompletedSkills(ss)
  {
    assert (ss + [s])[..|ss|] == ss;
  }

  // ---------------------------------------------------------------------
  // Averages

  function Sum(xs: seq<int>): int {
    if xs == [] then 0 else Sum(xs[..|xs| - 1]) + xs[|xs| - 1]
  }

  /** The arithmetic mean, 0 for an empty list. */
  function Mean(xs: seq<int>): real {
    if |xs| == 0 then 0.0 else Sum(xs) as real / |xs| as real
  }

  /** The ratings addressed to `wallet` that are truthy (present and not 0). */
  function RatingsFor(fb: seq<Feedback>, wallet: string): seq<int> {
    if fb == [] then []
    else
      var f := fb[|fb| - 1];
      RatingsFor(fb[..|fb| - 1], wallet)
        + (if f.toWallet == wallet && f.rating.Some? && f.rating.value != 0 then [f.rating.value] else [])
  }

  /** The NPS values addressed to `wallet` that are defined, 0 included. */
  function NpsFor(fb: seq<Feedback>, wallet: string): seq<int> {
    if fb == [] then []
    else
      var f := fb[|fb| - 1];
      NpsFor(fb[..|fb| - 1], wallet) + (if f.toWallet == wallet && f.npsScore.Some? then [f.npsScore.value] else [])
  }

  function AvgRating(fb: seq<Feedback>, wallet: string): real { Mean(RatingsFor(fb, wallet)) }

  function NpsAverage(fb: seq<Feedback>, wallet: string): real { Mean(NpsFor(fb, wallet)) }

  lemma {:induction false} SumBounds(xs: seq<int>, lo: int, hi: int)
    requires forall i :: 0 <= i < |xs| ==> lo <= xs[i] <= hi
    ensures lo * |xs| <= Sum(xs) <= hi * |xs|
  {
    if xs != [] {
      SumBounds(xs[..|xs| - 1], lo, hi);
    }
  }

  /** A quotient by a positive number lies between the bounds whose multiples
      bound the dividend. */
  lemma QuotientBetween(s: real, n: real, a: real, b: real)
    requires n > 0.0 && a * n <= s <= b * n
    ensures a <= s / n <= b
  {
    var q := s / n;
    assert q * n == s;
    assert (q - a) * n == s - a * n && (b - q) * n == b * n - s;
  }

  /** The mean of values within a range lies within that range. */
  lemma MeanBounds(xs: seq<int>, lo: int, hi: int)
    requires |xs| > 0
    requires forall i :: 0 <= i < |xs| ==> lo <= xs[i] <= hi
    ensures lo as real <= Mean(xs) <= hi as real
  {
    SumBounds(xs, lo, hi);
    var n := |xs|;
    assert (lo * n) as real == lo as real * n as real;
    assert (hi * n) as real == hi as real * n as real;
    QuotientBetween(Sum(xs) as real, n as real, lo as real, hi as real);
  }

  /** A rating of 0, a missing rating, or a rating addressed to someone else
      leaves the average rating unchanged. */
  lemma FalsyRatingIgnored(fb: seq<Feedback>, f: Feedback, wallet: string)
    requires f.toWallet != wallet || f.rating == None || f.rating == Some(0)
    ensures RatingsFor(fb + [f], wallet) == RatingsFor(fb, wallet)
    ensures AvgRating(fb + [f], wallet) == AvgRating(fb, wallet)
  {
    assert (fb + [f])[..|fb|] == fb;
  }

  /** A truthy rating addressed to the wallet is averaged: it joins the
      ratings, in order. */
  lemma TruthyRatingCounted(fb: seq<Feedback>, f: Feedback, wallet: string)
    requires f.toWallet == wallet && f.rating.Some? && f.rating.value != 0
    ensures RatingsFor(fb + [f], wallet) == RatingsFor(fb, wallet) + [f.rating.value]
    ensures |RatingsFor(fb + [f], wallet)| == |RatingsFor(fb, wallet)| + 1
  {
    assert (fb + [f])[..|fb|] == fb;
  }

  /** Any defined NPS addressed to the wallet is averaged: it joins the
      values, after the earlier ones. */
  lemma DefinedNpsCounted(fb: seq<Feedback>, f: Feedback, wallet: string)
    requires f.toWallet == wallet && f.npsScore.Some?
    ensures NpsFor(fb + [f], wallet) == NpsFor(fb, wallet) + [f.npsScore.value]
  {
    assert (fb + [f])[..|fb|] == fb;
  }

  /** Feedback without an NPS, or addressed to someone else, leaves the NPS
      values and their average unchanged. */
  lemma MissingNpsIgnored(fb: seq<Feedback>, f: Feedback, wallet: string)
    requires f.toWallet != wallet || f.npsScore == None
    ensures NpsFor(fb + [f], wallet) == NpsFor(fb, wallet)
    ensures NpsAverage(fb + [f], wallet) == NpsAverage(fb, wallet)
  {
    assert (fb + [f])[..|fb|] == fb;
  }

  /** An NPS of 0 addressed to the wallet is counted: it joins the values
      averaged. */
  lemma ZeroNpsCounted(fb: seq<Feedback>, f: Feedback, wallet: string)
    requires f.toWallet == wallet && f.npsScore == Some(0)
    ensures NpsFor(fb + [f], wallet) == NpsFor(fb, wallet) + [0]
    ensures |NpsFor(fb + [f], wallet)| == |NpsFor(fb, wallet)| + 1
  {
    assert (fb + [f])[..|fb|] == fb;
  }

  // ---------------------------------------------------------------------
  // Rounding and the score

  /** `Math.round`: the nearest integer, halves rounded up. */
  function Round(x: real): (n: int)
    ensures n as real <= x + 0.5 < n as real + 1.0
  {
    (x + 0.5).Floor
  }

  /** `Math.round(x * 10) / 10`: rounded to one decimal. */
  function RoundToTenth(x: real): real {
    Round(x * 10.0) as real / 10.0
  }

  /** `Math.round(sessionsCompleted * avgRating * 10)`. */
  function ReputationScore(completed: nat, avgRating: real): int {
    Round(completed as real * avgRating * 10.0)
  }

  lemma RoundBetween(x: real, a: int, b: int)
    requires a as real <= x <= b as real
    ensures a <= Round(x) <= b
  {
  }

  lemma ScaleBetween(c: real, m: real, lo: real, hi: real)
    requires 0.0 <= c && lo <= m <= hi
    ensures c * lo <= c * m <= c * hi
  {
    assert c * (m - lo) >= 0.0;
    assert c * (hi - m) >= 0.0;
  }

  /** With a mean rating in [lo, hi], the score lies between 10 × lo and
      10 × hi per completed session. */
  lemma ScoreBetween(completed: nat, m: real, lo: int, hi: int)
    requires lo as real <= m <= hi as real
    ensures 10 * lo * completed <= ReputationScore(completed, m) <= 10 * hi * completed
  {
    var c := completed as real * 10.0;
    ScaleBetween(c, m, lo as real, hi as real);
    TenfoldCast(completed, lo);
    TenfoldCast(completed, hi);
    assert ReputationScore(completed, m) == Round(c * m);
    RoundBetween(c * m, 10 * lo * completed, 10 * hi * completed);
  }

  lemma TenfoldCast(completed: nat, k: int)
    ensures (completed as real * 10.0) * (k as real) == (10 * k * completed) as real
  {
  }

  /** Without completed sessions or without a rating the score is 0. */
  lemma ScoreZero(completed: nat, m: real)
    requires completed == 0 || m == 0.0
    ensures ReputationScore(completed, m) == 0
  {
    assert completed as real * m * 10.0 == 0.0;
    RoundBetween(0.0, 0, 0);
  }

  /** The score is 0 without completed sessions or without ratings, and
      otherwise lies between 10 × lo and 10 × hi per completed session when
      the ratings lie in [lo, hi]. */
  lemma ReputationScoreRange(completed: nat, ratings: seq<int>, lo: int, hi: int)
    requires forall i :: 0 <= i < |ratings| ==> lo <= ratings[i] <= hi
    ensures completed == 0 || ratings == [] ==> ReputationScore(completed, Mean(ratings)) == 0
    ensures ratings != [] ==>
      10 * lo * completed <= ReputationScore(completed, Mean(ratings)) <= 10 * hi * completed
  {
    if ratings != [] {
      MeanBounds(ratings, lo, hi);
      ScoreBetween(completed, Mean(ratings), lo, hi);
    }
    if completed == 0 || ratings == [] {
      ScoreZero(completed, Mean(ratings));
    }
  }

  // ---------------------------------------------------------------------
  // Testimonials

  predicate IsTestimonial(f: Feedback, wallet: string) {
    f.toWallet == wallet && f.text.Some? && f.text.value != ""
  }

  function ToTestimonial(f: Feedback): Testimonial
    requires f.text.Some?
  {
    Testimonial(f.text.value, f.createdAt, f.fromWallet)
  }

  /** `peerTestimonials`: the feedback to `wallet` with truthy text, as
      `{ text, timestamp, fromWallet }`. */
  function Testimonials(fb: seq<Feedback>, wallet: string): seq<Testimonial> {
    if fb == [] then []
    else
      var f := fb[|fb| - 1];
      Testimonials(fb[..|fb| - 1], wallet) + (if IsTestimonial(f, wallet) then [ToTestimonial(f)] else [])
  }

  /** Testimonials are taken item by item, in order: the list of a
      concatenation is the concatenation of the lists. */
  lemma {:induction false} TestimonialsAppend(a: seq<Feedback>, b: seq<Feedback>, wallet: string)
    ensures Testimonials(a + b, wallet) == Testimonials(a, wallet) + Testimonials(b, wallet)
  {
    if b == [] {
      assert a + b == a;
    } else {
      TestimonialsAppend(a, b[..|b| - 1], wallet);
      assert (a + b)[..|a + b| - 1] == a + b[..|b| - 1];
    }
  }

  /** A single feedback item contributes itself exactly when it is addressed
      to the wallet and has non-empty text. */
  lemma TestimonialsSingle(f: Feedback, wallet: string)
    ensures Testimonials([f], wallet) == if IsTestimonial(f, wallet) then [ToTestimonial(f)] else []
  {
    assert [f][..0] == [];
  }

  /** `peerTestimonials` are exactly the feedback items to the wallet with
      non-empty text, in their original order: taken item by item, and only
      items with text. */
  lemma TestimonialsInOrder(a: seq<Feedback>, b: seq<Feedback>, f: Feedback, wallet: string)
    ensures Testimonials(a + b, wallet) == Testimonials(a, wallet) + Testimonials(b, wallet)
    ensures Testimonials([f], wallet) == if IsTestimonial(f, wallet) then [ToTestimonial(f)] else []
    ensures forall t :: t in Testimonials(a, wallet) ==> t.text != ""
  {
    TestimonialsAppend(a, b, wallet);
    TestimonialsSingle(f, wallet);
    TestimonialsText(a, wallet);
  }

  lemma {:induction false} TestimonialsText(a: seq<Feedback>, wallet: string)
    ensures forall t :: t in Testimonials(a, wallet) ==> t.text != ""
  {
    if a != [] {
      TestimonialsText(a[..|a| - 1], wallet);
    }
  }

  // ---------------------------------------------------------------------
  // The figures together

  /** The computed figures, before they are merged into the profile. */
  datatype Stats = Stats(
    sessionsCompleted: nat, sessionsGiven: nat, sessionsReceived: nat,
    avgRating: real, npsScore: real, topSkillsUsage: seq<SkillUsage>,
    peerTestimonials: seq<Testimonial>, reputationScore: int)

  /** All figures for `wallet`; the specification of `ComputeStats`. */
  function StatsOf(sessions: seq<Session>, feedback: seq<Feedback>, wallet: string): Stats {
    var completed := SessionsCompleted(sessions);
    var avg := AvgRating(feedback, wallet);
    Stats(completed, SessionsGiven(sessions, wallet), SessionsReceived(sessions, wallet),
          avg, NpsAverage(feedback, wallet), TopSkillsUsage(CompletedSkills(sessions)),
          Testimonials(feedback, wallet), ReputationScore(completed, avg))
  }

  lemma CompletedSkillsStep(ss: seq<Session>, i: nat)
    requires i < |ss|
    ensures CompletedSkills(ss[..i + 1]) ==
      CompletedSkills(ss[..i]) + (if IsCompleted(ss[i]) then [ss[i].skill] else [])
  {
    assert ss[..i + 1][..i] == ss[..i];
  }

  /** The count object `counts`, with its keys in insertion order `keys`,
      holds exactly the entries `t`. */
  ghost predicate CountsMatch(counts: map<string, nat>, keys: seq<string>, t: seq<SkillUsage>) {
    keys == Skills(t) &&
    (forall k :: k in counts <==> k in keys) &&
    (forall j :: 0 <= j < |keys| ==> keys[j] in counts && counts[keys[j]] == t[j].count)
  }

  /** Incrementing the key at position `p` of the count object increments
      the entry at `p`. */
  lemma CountsIncrement(counts: map<string, nat>, keys: seq<string>, t: seq<SkillUsage>, p: nat, k: string)
    requires CountsMatch(counts, keys, t) && DistinctSkills(t)
    requires p < |keys| && keys[p] == k
    ensures CountsMatch(counts[k := counts[k] + 1], keys, t[p := SkillUsage(k, t[p].count + 1)])
  {
    var t' := t[p := SkillUsage(k, t[p].count + 1)];
    var counts' := counts[k := counts[k] + 1];
    assert Skills(t') == Skills(t);
    forall j | 0 <= j < |keys| ensures keys[j] in counts' && counts'[keys[j]] == t'[j].count {
      if j != p {
        assert t[j].skill != t[p].skill;
      }
    }
  }

  /** A key of the count object has a position in the key order. */
  lemma KeyPosition(counts: map<string, nat>, keys: seq<string>, t: seq<SkillUsage>, k: string)
    returns (p: nat)
    requires CountsMatch(counts, keys, t)
    requires k in counts
    ensures p < |keys| && keys[p] == k && t[p].skill == k
  {
    p :| 0 <= p < |keys| && keys[p] == k;
    assert t[p].skill == Skills(t)[p];
  }

  /** Incrementing an existing key of the count object is `Bump`. */
  lemma CountsBumpPresent(counts: map<string, nat>, keys: seq<string>, t: seq<SkillUsage>, k: string)
    requires CountsMatch(counts, keys, t) && DistinctSkills(t)
    requires k in counts
    ensures CountsMatch(counts[k := counts[k] + 1], keys, Bump(t, k))
  {
    var p := KeyPosition(counts, keys, t, k);
    BumpPresent(t, k, p);
    CountsIncrement(counts, keys, t, p, k);
    assert Bump(t, k) == t[p := SkillUsage(k, t[p].count + 1)];
  }

  /** Adding a new key with count 1 is `Bump`. */
  lemma CountsBumpAbsent(counts: map<string, nat>, keys: seq<string>, t: seq<SkillUsage>, k: string)
    requires CountsMatch(counts, keys, t)
    requires k !in counts
    ensures CountsMatch(counts[k := 1], keys + [k], Bump(t, k))
  {
    BumpAbsent(t, k);
    assert Skills(Bump(t, k)) == Skills(t) + [k];
  }

  /** One completed session whose skill is already a key. */
  lemma CountStepPresent(counts: map<string, nat>, keys: seq<string>, ss: seq<Session>, i: nat)
    requires i < |ss| && IsCompleted(ss[i]) && ss[i].skill in counts
    requires CountsMatch(counts, keys, Tally(CompletedSkills(ss[..i])))
    ensures CountsMatch(counts[ss[i].skill := counts[ss[i].skill] + 1], keys, Tally(CompletedSkills(ss[..i + 1])))
  {
    var before, k := CompletedSkills(ss[..i]), ss[i].skill;
    var t := Tally(before);
    assert Tally(CompletedSkills(ss[..i + 1])) == Bump(t, k) by {
      CompletedSkillsStep(ss, i);
      TallySnoc(before, k);
    }
    TallyKeys(before);
    CountsBumpPresent(counts, keys, t, k);
  }

  /** One completed session whose skill is not a key yet. */
  lemma CountStepAbsent(counts: map<string, nat>, keys: seq<string>, ss: seq<Session>, i: nat)
    requires i < |ss| && IsCompleted(ss[i]) && ss[i].skill !in counts
    requires CountsMatch(counts, keys, Tally(CompletedSkills(ss[..i])))
    ensures CountsMatch(counts[ss[i].skill := 1], keys + [ss[i].skill], Tally(CompletedSkills(ss[..i + 1])))
  {
    var before, k := CompletedSkills(ss[..i]), ss[i].skill;
    CompletedSkillsStep(ss, i);
    TallySnoc(before, k);
    CountsBumpAbsent(counts, keys, Tally(before), k);
  }

  /** One session that is not completed. */
  lemma CountStepSkipped(ss: seq<Session>, i: nat)
    requires i < |ss| && !IsCompleted(ss[i])
    ensures CompletedSkills(ss[..i + 1]) == CompletedSkills(ss[..i])
  {
    CompletedSkillsStep(ss, i);
    assert CompletedSkills(ss[..i]) + [] == CompletedSkills(ss[..i]);
  }

  /** The `skillCounts` loop: a count object filled in place while walking
      the sessions and counting the completed ones by skill; `keys` records
      the order in which keys were first inserted. */
  method CountCompletedSkills(sessions: seq<Session>) returns (skillCounts: map<string, nat>, keys: seq<string>)
    ensures CountsMatch(skillCounts, keys, Tally(CompletedSkills(sessions)))
  {
    skillCounts, keys := map[], [];
    var i := 0;
    while i < |sessions|
      invariant 0 <= i <= |sessions|
      invariant CountsMatch(skillCounts, keys, Tally(CompletedSkills(sessions[..i])))
    {
      var s := sessions[i];
      if s.status == CompletedStatus {
        if s.skill in skillCounts {
          CountStepPresent(skillCounts, keys, sessions, i);
          skillCounts := skillCounts[s.skill := skillCounts[s.skill] + 1];
        } else {
          CountStepAbsent(skillCounts, keys, sessions, i);
          skillCounts := skillCounts[s.skill := 1];
          keys := keys + [s.skill];
        }
      } else {
        CountStepSkipped(sessions, i);
      }
      i := i + 1;
    }
    assert sessions[..i] == sessions;
  }

  /** `Object.entries(skillCounts).map(...)`: the count object read out as
      `{ skill, count }` entries in key order, which is the tally of the
      completed sessions' skills. */
  method CountSkillUsage(sessions: seq<Session>) returns (usage: seq<SkillUsage>)
    ensures usage == Tally(CompletedSkills(sessions))
  {
    var skillCounts, keys := CountCompletedSkills(sessions);
    ghost var all := Tally(CompletedSkills(sessions));
    usage := [];
    var j := 0;
    while j < |keys|
      invariant 0 <= j <= |keys|
      invariant usage == all[..j]
    {
      usage := usage + [SkillUsage(keys[j], skillCounts[keys[j]])];
      j := j + 1;
    }
  }

  /** The GET branch's figures: the skill counts taken by the in-place
      counting loop, the other figures by their definitions. */
  method ComputeStats(sessions: seq<Session>, feedback: seq<Feedback>, wallet: string) returns (st: Stats)
    ensures st == StatsOf(sessions, feedback, wallet)
  {
    var usage := CountSkillUsage(sessions);
    var completed := SessionsCompleted(sessions);
    var avg := AvgRating(feedback, wallet);
    st := Stats(completed, SessionsGiven(sessions, wallet), SessionsReceived(sessions, wallet),
                avg, NpsAverage(feedback, wallet), Top(usage),
                Testimonials(feedback, wallet), ReputationScore(completed, avg));
  }

  /** The figures StatsOf computes obey the promises of the GET branch: role
      counts bounded by the completed count, at most five ranked skills with
      the right counts, and, with at most five distinct skills, ranked counts
      that add up to the completed sessions. */
  lemma StatsFacts(sessions: seq<Session>, feedback: seq<Feedback>, wallet: string)
    ensures var st := StatsOf(sessions, feedback, wallet);
      st.sessionsGiven <= st.sessionsCompleted &&
      st.sessionsReceived <= st.sessionsCompleted &&
      |st.topSkillsUsage| <= TopCount &&
      DistinctSkills(st.topSkillsUsage) && NonIncreasing(st.topSkillsUsage) &&
      (forall i :: 0 <= i < |st.topSkillsUsage| ==>
        st.topSkillsUsage[i].count == Occurrences(CompletedSkills(sessions), st.topSkillsUsage[i].skill)) &&
      (|Dedup(CompletedSkills(sessions))| <= TopCount ==>
        TotalCount(st.topSkillsUsage) == st.sessionsCompleted)
  {
    var xs := CompletedSkills(sessions);
    SessionCountsBounded(sessions, wallet);
    TopSkillsShape(xs);
    if |Dedup(xs)| <= TopCount {
      TopSkillsTotal(xs);
    }
  }

  /** The worked example: two completed sessions, rated 4 and 5, give an
      average rating of 4.5 and a score of 90. */
  lemma TwoSessionsExample(me: string, other: string)
    requires me != other
    ensures var st := StatsOf(
        [Session(CompletedStatus, me, other, "rust"), Session(CompletedStatus, other, me, "rust")],
        [Feedback(other, me, Some(4), None, None, "t1"), Feedback(other, me, Some(5), None, None, "t2")],
        me);
      st.sessionsCompleted == 2 && st.sessionsGiven == 1 && st.sessionsReceived == 1 &&
      st.avgRating == 4.5 && st.reputationScore == 90 && RoundToTenth(st.avgRating) == 4.5
  {
    var ss := [Session(CompletedStatus, me, other, "rust"), Session(CompletedStatus, other, me, "rust")];
    var fb := [Feedback(other, me, Some(4), None, None, "t1"), Feedback(other, me, Some(5), None, None, "t2")];
    assert ss[..1][..0] == [] && ss[..1] == [ss[0]];
    assert fb[..1][..0] == [] && fb[..1] == [fb[0]];
    assert RatingsFor(fb[..1], me) == [4];
    assert RatingsFor(fb, me) == [4, 5];
    assert SessionsGiven(ss[..1], me) == 1;
    assert SessionsReceived(ss[..1], me) == 0;
    assert Sum([4, 5]) == 9 by { assert [4, 5][..1] == [4]; assert [4][..0] == []; }
    assert AvgRating(fb, me) == 4.5;
    assert SessionsCompleted(ss[..1]) == 1;
    assert SessionsCompleted(ss) == 2;
    assert SessionsGiven(ss, me) == 1;
    assert SessionsReceived(ss, me) == 1;
    assert Round(2.0 * 4.5 * 10.0) == 90;
    assert Round(4.5 * 10.0) == 45;
  }

  // ---------------------------------------------------------------------
  // The enriched profile

  function UsageJson(t: seq<SkillUsage>): seq<JsValue> {
    if t == [] then []
    else [Obj(map["skill" := Str(t[0].skill), "count" := Num(t[0].count as real)])] + UsageJson(t[1..])
  }

  function TestimonialsJson(t: seq<Testimonial>): seq<JsValue> {
    if t == [] then []
    else [Obj(map["text" := Str(t[0].text), "timestamp" := Str(t[0].timestamp),
                  "fromWallet" := Str(t[0].fromWallet)])] + TestimonialsJson(t[1..])
  }

  /** The fields the handler adds to the profile; `now` is the clock reading
      stored as `lastActiveTimestamp`. */
  function ComputedFields(st: Stats, now: string): map<string, JsValue> {
    map[
      "sessionsCompleted" := Num(st.sessionsCompleted as real),
      "sessionsGiven" := Num(st.sessionsGiven as real),
      "sessionsReceived" := Num(st.sessionsReceived as real),
      "avgRating" := Num(RoundToTenth(st.avgRating)),
      "npsScore" := Num(Round(st.npsScore) as real),
      "topSkillsUsage" := Arr(UsageJson(st.topSkillsUsage)),
      "peerTestimonials" := Arr(TestimonialsJson(st.peerTestimonials)),
      "reputationScore" := Num(st.reputationScore as real),
      "lastActiveTimestamp" := Str(now)
    ]
  }

  /** `profile ? { ...profile, <computed fields> } : null`. */
  function EnrichedProfile(profile: Option<map<string, JsValue>>, st: Stats, now: string)
    : (r: Option<map<string, JsValue>>)
    ensures r.Some? <==> profile.Some?
    ensures profile.Some? ==>
      r.value.Keys == profile.value.Keys + ComputedFields(st, now).Keys &&
      (forall k :: k in profile.value && k !in ComputedFields(st, now) ==> r.value[k] == profile.value[k]) &&
      (forall k :: k in ComputedFields(st, now) ==> r.value[k] == ComputedFields(st, now)[k])
  {
    match profile
    case None => None
    case Some(p) => Some(p + ComputedFields(st, now))
  }
}
