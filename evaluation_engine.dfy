/**
  The secondary scores: the generic ATS score of a section map, the role
  readiness score derived from the diagnostics, the ranking of registry roles
  by keyword affinity, and the evaluation that combines them.
 */
module EvaluationEngine {
  import opened Seqs
  import opened Text
  import opened OrderedDict
  import opened RoleProfiles
  import opened Analyzer

  // ===================== ATS score =====================

  /** `sections.get(key)` is truthy: the section exists and is not empty. */
  predicate Filled(sections: Dict<string>, key: string) {
    GetOr(sections, key, "") != ""
  }

  /** The skills section holds more than 900 characters. */
  predicate SkillsOverlong(sections: Dict<string>) {
    |GetOr(sections, "skills", "")| > 900
  }

  /** Fewer than ten digits in all section values joined by spaces. */
  predicate FewNumbers(sections: Dict<string>) {
    DigitCount(Join(Values(sections), " ")) < 10
  }

  /** `compute_ats_score`: five independent penalties, floored at 40. */
  function AtsScore(sections: Dict<string>): (s: int)
    ensures 40 <= s <= 100
  {
    var score := 100
      - (if SkillsOverlong(sections) then 15 else 0)
      - (if !Filled(sections, "experience") then 20 else 0)
      - (if !Filled(sections, "projects") then 10 else 0)
      - (if FewNumbers(sections) then 10 else 0)
      - (if !Filled(sections, "education") then 5 else 0);
    if score < 40 then 40 else score
  }

  /** The score is 100 exactly when no penalty applies. */
  lemma AtsPerfect(sections: Dict<string>)
    ensures AtsScore(sections) == 100 <==>
      !SkillsOverlong(sections) && Filled(sections, "experience") && Filled(sections, "projects") &&
      !FewNumbers(sections) && Filled(sections, "education")
  {
  }

  /** The floor of 40 is reached exactly when all five penalties apply: the penalties add up
      to 60, and any four of them to at most 55. */
  lemma AtsFloor(sections: Dict<string>)
    ensures AtsScore(sections) == 40 <==>
      SkillsOverlong(sections) && !Filled(sections, "experience") && !Filled(sections, "projects") &&
      FewNumbers(sections) && !Filled(sections, "education")
  {
  }

  /** The number of digits of each part, summed. */
  function DigitSum(parts: seq<string>): nat
    decreases |parts|
  {
    if parts == [] then 0 else DigitCount(parts[0]) + DigitSum(parts[1..])
  }

  /** The separator adds no digits: the digits of the joined values are the digits of the
      values, whatever their order. */
  lemma {:induction false} DigitsOfJoin(parts: seq<string>)
    ensures DigitCount(Join(parts, " ")) == DigitSum(parts)
    decreases |parts|
  {
    if |parts| == 1 {
    } else if |parts| > 1 {
      DigitsOfJoin(parts[1..]);
      DigitCountAppend(parts[0], " ");
      DigitCountAppend(parts[0] + " ", Join(parts[1..], " "));
      assert DigitCount(" ") == 0;
    }
  }

  /** An empty resume has only an empty `header` section: every penalty but the skills one
      applies, and the score is 55. */
  lemma AtsOfEmptyResume()
    ensures AtsScore(SectionsOf("")) == 55
  {
    SectionsOfEmpty();
    var d: Dict<string> := [("header", "")];
    assert Values(d) == [""];
    assert !Filled(d, "experience") && !Filled(d, "projects") && !Filled(d, "education");
    assert !SkillsOverlong(d);
  }

  // ===================== Role readiness =====================

  /** `compute_role_readiness`: penalties per missing and weak item, a capped lift for
      strengths, clamped to [30, 95]. */
  function RoleReadiness(d: Diagnostics, base: int): (r: int)
    ensures 30 <= r <= 95
  {
    var score := base - 10 * |d.missingMustHave| - 4 * |d.weakSignals| + Min(2 * |d.strengths|, 8);
    if score > 95 then 95 else if score < 30 then 30 else score
  }

  /** Readiness never rises with more missing or weak items, never falls with more strengths
      or a higher base. */
  lemma ReadinessMonotone(d1: Diagnostics, base1: int, d2: Diagnostics, base2: int)
    requires |d2.missingMustHave| <= |d1.missingMustHave| && |d2.weakSignals| <= |d1.weakSignals|
    requires |d1.strengths| <= |d2.strengths| && base1 <= base2
    ensures RoleReadiness(d1, base1) <= RoleReadiness(d2, base2)
  {
  }

  /** Readiness is the adjusted score `base - 10 * missing - 4 * weak + min(2 * strengths, 8)`
      when that lies inside (30, 95), and the nearer bound otherwise. */
  lemma ReadinessUnclamped(d: Diagnostics, base: int)
    ensures var r := RoleReadiness(d, base);
      var u := base - 10 * |d.missingMustHave| - 4 * |d.weakSignals| + Min(2 * |d.strengths|, 8);
      (30 < r < 95 ==> r == u) && (r == 95 <==> u >= 95) && (r == 30 <==> u <= 30)
  {
  }

  // ===================== Role affinity and ranking =====================

  /** The number of items that occur literally in the text. */
  function CountIn(items: seq<string>, text: string): (n: nat)
    ensures n <= |items|
    decreases |items|
  {
    if items == [] then 0
    else CountIn(items[..|items| - 1], text) + (if Contains(text, items[|items| - 1]) then 1 else 0)
  }

  /** The affinity of a profile: 3 per must-have and 2 per strong signal occurring literally
      (the implicit keyword table plays no part). */
  function Affinity(p: RoleProfile, text: string): nat {
    3 * CountIn(p.mustHave, text) + 2 * CountIn(p.strongSignals, text)
  }

  /** Counting the items that occur: all of them when all occur, none when none does. */
  lemma {:induction false} CountInBounds(items: seq<string>, text: string)
    ensures CountIn(items, text) == |items| <==> forall x :: x in items ==> Contains(text, x)
    ensures CountIn(items, text) == 0 <==> forall x :: x in items ==> !Contains(text, x)
    decreases |items|
  {
    if items != [] {
      var init := items[..|items| - 1];
      CountInBounds(init, text);
      var last := items[|items| - 1];
      assert items == init + [last];
      assert CountIn(items, text) == CountIn(init, text) + (if Contains(text, last) then 1 else 0);
      assert (forall x :: x in items ==> Contains(text, x)) <==>
        (forall x :: x in init ==> Contains(text, x)) && Contains(text, last);
      assert (forall x :: x in items ==> !Contains(text, x)) <==>
        (forall x :: x in init ==> !Contains(text, x)) && !Contains(text, last);
    }
  }

  /** More text never lowers a count: every occurrence survives extension. */
  lemma {:induction false} CountInExtend(items: seq<string>, text: string, pre: string, post: string)
    ensures CountIn(items, text) <= CountIn(items, pre + text + post)
    decreases |items|
  {
    if items != [] {
      CountInExtend(items[..|items| - 1], text, pre, post);
      if Contains(text, items[|items| - 1]) {
        ContainsExtend(text, items[|items| - 1], pre, post);
      }
    }
  }

  /** Affinity grows with the text and is bounded by the profile's size. */
  lemma AffinityExtend(p: RoleProfile, text: string, pre: string, post: string)
    ensures Affinity(p, text) <= Affinity(p, pre + text + post)
    ensures Affinity(p, text) <= 3 * |p.mustHave| + 2 * |p.strongSignals|
  {
    CountInExtend(p.mustHave, text, pre, post);
    CountInExtend(p.strongSignals, text, pre, post);
  }

  /** The (role, affinity) pairs of `role_scores`, in registry order. */
  function RoleScores(profiles: Dict<RoleProfile>, text: string): Dict<int>
    decreases |profiles|
  {
    if profiles == [] then []
    else
      var last := profiles[|profiles| - 1];
      RoleScores(profiles[..|profiles| - 1], text) + [(last.0, Affinity(last.1, text))]
  }

  /** Each role is paired with its own affinity, at its registry position. */
  lemma {:induction false} RoleScoresAt(profiles: Dict<RoleProfile>, text: string)
    ensures |RoleScores(profiles, text)| == |profiles|
    ensures forall i :: 0 <= i < |profiles| ==>
      RoleScores(profiles, text)[i] == (profiles[i].0, Affinity(profiles[i].1, text))
    decreases |profiles|
  {
    if profiles != [] {
      RoleScoresAt(profiles[..|profiles| - 1], text);
    }
  }

  /** The affinity computation of `recommend_best_roles` for one profile: the must-have loop
      and the strong-signal loop. */
  method ProfileAffinity(profile: RoleProfile, text: string) returns (score: int)
    ensures score == Affinity(profile, text)
  {
    score := 0;
    var mustHave := profile.mustHave;
    var i := 0;
    while i < |mustHave|
      invariant 0 <= i <= |mustHave|
      invariant score == 3 * CountIn(mustHave[..i], text)
    {
      assert mustHave[..i + 1][..i] == mustHave[..i];
      if Contains(text, mustHave[i]) {
        score := score + 3;
      }
      i := i + 1;
    }
    assert mustHave[..i] == mustHave;
    var strong := profile.strongSignals;
    var j := 0;
    while j < |strong|
      invariant 0 <= j <= |strong|
      invariant score == 3 * CountIn(mustHave, text) + 2 * CountIn(strong[..j], text)
    {
      assert strong[..j + 1][..j] == strong[..j];
      if Contains(text, strong[j]) {
        score := score + 2;
      }
      j := j + 1;
    }
    assert strong[..j] == strong;
  }

  /** The outer loop of `recommend_best_roles`: `role_scores[role] = score` for each profile
      in order. With distinct role keys every assignment appends. */
  method ScoreRoles(profiles: Dict<RoleProfile>, text: string) returns (roleScores: Dict<int>)
    requires UniqueKeys(profiles)
    ensures roleScores == RoleScores(profiles, text)
  {
    roleScores := [];
    var i := 0;
    while i < |profiles|
      invariant 0 <= i <= |profiles|
      invariant roleScores == RoleScores(profiles[..i], text)
      invariant Keys(roleScores) == Keys(profiles[..i])
    {
      var role := profiles[i].0;
      var score := ProfileAffinity(profiles[i].1, text);
      assert profiles[..i + 1][..i] == profiles[..i];
      assert role !in Keys(profiles[..i]) by {
        assert Keys(profiles[..i]) == Keys(profiles)[..i];
        assert forall j :: 0 <= j < i ==> Keys(profiles)[j] != Keys(profiles)[i];
      }
      SetFresh(roleScores, role, score);
      roleScores := Set(roleScores, role, score);
      assert Keys(profiles[..i + 1]) == Keys(profiles[..i]) + [role];
      i := i + 1;
    }
    assert profiles[..i] == profiles;
  }

  // ----- The stable descending sort -----

  /** Put `x` before the first element of `t` that does not score higher than it. */
  function Insert(x: (string, int), t: Dict<int>): (r: Dict<int>)
    ensures |r| == |t| + 1
    decreases |t|
  {
    if t == [] || x.1 >= t[0].1 then [x] + t
    else [t[0]] + Insert(x, t[1..])
  }

  /** `sorted(items, key=score, reverse=True)` as insertion from the back: each earlier
      item is inserted before every later one with an equal score, which keeps the sort
      stable. */
  function SortDesc(s: Dict<int>): (r: Dict<int>)
    ensures |r| == |s|
    decreases |s|
  {
    if s == [] then [] else Insert(s[0], SortDesc(s[1..]))
  }

  /** Scores never increase along the sequence. */
  predicate SortedDesc(s: Dict<int>) {
    forall i, j :: 0 <= i < j < |s| ==> s[i].1 >= s[j].1
  }

  /** The pairs with score `v`, in their order. */
  function WithScore(s: Dict<int>, v: int): Dict<int>
    decreases |s|
  {
    if s == [] then [] else (if s[0].1 == v then [s[0]] else []) + WithScore(s[1..], v)
  }

  lemma {:induction false} InsertPerm(x: (string, int), t: Dict<int>)
    ensures multiset(Insert(x, t)) == multiset{x} + multiset(t)
    decreases |t|
  {
    if t != [] && x.1 < t[0].1 {
      InsertPerm(x, t[1..]);
      assert t == [t[0]] + t[1..];
    }
  }

  /** The sort is a permutation. */
  lemma {:induction false} SortDescPerm(s: Dict<int>)
    ensures multiset(SortDesc(s)) == multiset(s)
    decreases |s|
  {
    if s != [] {
      SortDescPerm(s[1..]);
      InsertPerm(s[0], SortDesc(s[1..]));
      assert s == [s[0]] + s[1..];
    }
  }

  lemma {:induction false} InsertSorted(x: (string, int), t: Dict<int>)
    requires SortedDesc(t)
    ensures SortedDesc(Insert(x, t))
    decreases |t|
  {
    if t != [] && x.1 < t[0].1 {
      InsertSorted(x, t[1..]);
      InsertPerm(x, t[1..]);
      var r := Insert(x, t[1..]);
      forall y | y in r
        ensures t[0].1 >= y.1
      {
        assert y in multiset(r);
      }
      assert Insert(x, t) == [t[0]] + r;
      forall i, j | 0 <= i < j < |r| + 1
        ensures ([t[0]] + r)[i].1 >= ([t[0]] + r)[j].1
      {
        if i == 0 {
          assert r[j - 1] in r;
        }
      }
    }
  }

  /** The sort orders by score, highest first. */
  lemma {:induction false} SortDescSorted(s: Dict<int>)
    ensures SortedDesc(SortDesc(s))
    decreases |s|
  {
    if s != [] {
      SortDescSorted(s[1..]);
      InsertSorted(s[0], SortDesc(s[1..]));
    }
  }

  lemma WithScoreCons(a: (string, int), s: Dict<int>, v: int)
    ensures WithScore([a] + s, v) == (if a.1 == v then [a] else []) + WithScore(s, v)
  {
    assert ([a] + s)[1..] == s;
  }

  lemma {:induction false} InsertStable(x: (string, int), t: Dict<int>, v: int)
    ensures WithScore(Insert(x, t), v) == (if x.1 == v then [x] else []) + WithScore(t, v)
    decreases |t|
  {
    if t != [] && x.1 < t[0].1 {
      var rest := Insert(x, t[1..]);
      InsertStable(x, t[1..], v);
      assert Insert(x, t) == [t[0]] + rest;
      WithScoreCons(t[0], rest, v);
      assert t == [t[0]] + t[1..];
      WithScoreCons(t[0], t[1..], v);
      if x.1 == v {
        assert t[0].1 != v;
      }
    } else {
      assert Insert(x, t) == [x] + t;
      WithScoreCons(x, t, v);
    }
  }

  /** The sort is stable: the pairs of any one score keep their relative order. */
  lemma {:induction false} SortDescStable(s: Dict<int>, v: int)
    ensures WithScore(SortDesc(s), v) == WithScore(s, v)
    decreases |s|
  {
    if s != [] {
      SortDescStable(s[1..], v);
      InsertStable(s[0], SortDesc(s[1..]), v);
    }
  }

  lemma {:induction false} WithScoreAppend(a: Dict<int>, b: Dict<int>, v: int)
    ensures WithScore(a + b, v) == WithScore(a, v) + WithScore(b, v)
    decreases |a|
  {
    if a != [] {
      WithScoreAppend(a[1..], b, v);
      assert (a + b)[1..] == a[1..] + b;
    } else {
      assert a + b == b;
    }
  }

  lemma {:induction false} InsertKeys(x: (string, int), t: Dict<int>)
    requires NoDuplicates(Keys(t)) && x.0 !in Keys(t)
    ensures NoDuplicates(Keys(Insert(x, t)))
    ensures forall k :: k in Keys(Insert(x, t)) <==> k == x.0 || k in Keys(t)
    decreases |t|
  {
    if t == [] || x.1 >= t[0].1 {
      assert Keys([x] + t) == [x.0] + Keys(t);
      NoDuplicatesCons(x.0, Keys(t));
    } else {
      assert Keys(t) == [t[0].0] + Keys(t[1..]);
      NoDuplicatesCons(t[0].0, Keys(t[1..]));
      InsertKeys(x, t[1..]);
      assert Keys([t[0]] + Insert(x, t[1..])) == [t[0].0] + Keys(Insert(x, t[1..]));
      NoDuplicatesCons(t[0].0, Keys(Insert(x, t[1..])));
    }
  }

  /** Sorting keeps the set of keys and introduces no repeated key. */
  lemma {:induction false} SortDescKeys(s: Dict<int>)
    requires NoDuplicates(Keys(s))
    ensures NoDuplicates(Keys(SortDesc(s)))
    ensures forall k :: k in Keys(SortDesc(s)) <==> k in Keys(s)
    decreases |s|
  {
    if s != [] {
      assert Keys(s) == [s[0].0] + Keys(s[1..]);
      NoDuplicatesCons(s[0].0, Keys(s[1..]));
      SortDescKeys(s[1..]);
      InsertKeys(s[0], SortDesc(s[1..]));
    }
  }

  // ----- The recommendation -----

  /** The ranked (role, affinity) pairs for lower-cased text. */
  function Ranked(profiles: Dict<RoleProfile>, text: string): Dict<int> {
    SortDesc(RoleScores(profiles, text))
  }

  /** The first three ranked pairs (fewer when there are fewer roles). */
  function Top(profiles: Dict<RoleProfile>, text: string): Dict<int> {
    var r := Ranked(profiles, text);
    r[..Min(3, |r|)]
  }

  /** `recommend_best_roles` as a function over a profile table. */
  function Recommended(profiles: Dict<RoleProfile>, resumeText: string): seq<string> {
    Keys(Top(profiles, Lower(resumeText)))
  }

  /** What the recommendation promises: min(3, |profiles|) distinct roles of the table, their
      affinities non-increasing, no omitted role with a higher affinity than a recommended one,
      and among roles of equal affinity the recommended ones are the first in table order. */
  lemma RecommendedProperties(profiles: Dict<RoleProfile>, text: string)
    requires UniqueKeys(profiles)
    ensures var top := Top(profiles, text);
      |top| == Min(3, |profiles|) &&
      NoDuplicates(Keys(top)) &&
      (forall k :: k in Keys(top) ==> HasKey(profiles, k)) &&
      (forall i, j :: 0 <= i < j < |top| ==> top[i].1 >= top[j].1) &&
      (forall p :: p in RoleScores(profiles, text) && p !in top ==> forall q :: q in top ==> p.1 <= q.1) &&
      (forall v :: WithScore(top, v) <= WithScore(RoleScores(profiles, text), v))
  {
    var s := RoleScores(profiles, text);
    var r := SortDesc(s);
    var k := Min(3, |r|);
    RoleScoresAt(profiles, text);
    assert Keys(s) == Keys(profiles);
    SortDescKeys(s);
    SortDescSorted(s);
    SortDescPerm(s);
    TopKeys(r, k);
    PrefixDominates(s, r, k);
    forall v
      ensures WithScore(r[..k], v) <= WithScore(s, v)
    {
      SortDescStable(s, v);
      PrefixStable(r, k, v);
    }
  }

  /** In a sorted permutation, nothing left out of a prefix scores higher than what is in it. */
  lemma PrefixDominates(s: Dict<int>, r: Dict<int>, k: nat)
    requires multiset(r) == multiset(s) && SortedDesc(r) && k <= |r|
    ensures forall p :: p in s && p !in r[..k] ==> forall q :: q in r[..k] ==> p.1 <= q.1
  {
    forall p | p in s && p !in r[..k]
      ensures forall q :: q in r[..k] ==> p.1 <= q.1
    {
      assert p in multiset(r);
      var j :| 0 <= j < |r| && r[j] == p;
      forall q | q in r[..k]
        ensures p.1 <= q.1
      {
        var i :| 0 <= i < k && r[..k][i] == q;
      }
    }
  }

  /** The pairs of one score within a prefix are the first of that score. */
  lemma PrefixStable(r: Dict<int>, k: nat, v: int)
    requires k <= |r|
    ensures WithScore(r[..k], v) <= WithScore(r, v)
  {
    assert r == r[..k] + r[k..];
    WithScoreAppend(r[..k], r[k..], v);
  }

  /** The keys of a prefix are distinct keys of the whole. */
  lemma TopKeys(r: Dict<int>, k: nat)
    requires k <= |r| && NoDuplicates(Keys(r))
    ensures NoDuplicates(Keys(r[..k]))
    ensures forall x :: x in Keys(r[..k]) ==> x in Keys(r)
  {
    assert Keys(r[..k]) == Keys(r)[..k];
  }

  /** `recommend_best_roles`: lower-case the text, score every registry role, sort by score
      (stable, highest first) and keep the first three roles. */
  method RecommendBestRoles(resumeText: string) returns (roles: seq<string>)
    ensures roles == Recommended(Registry, resumeText)
  {
    var text := Lower(resumeText);
    RegistryUnique();
    var roleScores := ScoreRoles(Registry, text);
    var sorted := SortDesc(roleScores);
    roles := Keys(sorted[..Min(3, |sorted|)]);
  }

  /** With the eleven registry entries the recommendation always names three distinct roles. */
  lemma RecommendsThree(resumeText: string)
    ensures |Recommended(Registry, resumeText)| == 3
    ensures NoDuplicates(Recommended(Registry, resumeText))
    ensures forall k :: k in Recommended(Registry, resumeText) ==> HasKey(Registry, k)
  {
    RegistryUnique();
    RecommendedProperties(Registry, Lower(resumeText));
  }

  // ===================== The evaluation =====================

  datatype Evaluation = Evaluation(atsScore: int, roleReadinessScore: int, recommendedRoles: seq<string>, primaryRole: string)

  /** `evaluate_resume`: the ATS score, readiness on the ATS score as its base, the
      recommended roles, and the target role passed through. */
  method EvaluateResume(resumeText: string, sections: Dict<string>, diagnostics: Diagnostics, targetRole: string)
    returns (e: Evaluation)
    ensures e.atsScore == AtsScore(sections) && 40 <= e.atsScore <= 100
    ensures e.roleReadinessScore == RoleReadiness(diagnostics, e.atsScore) && 30 <= e.roleReadinessScore <= 95
    ensures e.recommendedRoles == Recommended(Registry, resumeText)
    ensures e.primaryRole == targetRole
  {
    var ats := AtsScore(sections);
    var readiness := RoleReadiness(diagnostics, ats);
    var roles := RecommendBestRoles(resumeText);
    e := Evaluation(ats, readiness, roles, targetRole);
  }
}
