/**
  The deterministic analyser: splitting resume text into labelled sections,
  detecting competencies through literal and implicit keywords, and the
  role-specific score with its reasons and diagnostics.
 */
module Analyzer {
  import opened Seqs
  import opened Text
  import opened OrderedDict
  import opened RoleProfiles

  // ===================== Section splitting =====================

  /** The header tokens, in the order a line is tested against them. */
  const SectionHeaders: seq<string> := ["skills", "experience", "projects", "education", "certifications"]

  /** The header tokens are distinct and lower case, so each can match a lower-cased line. */
  lemma SectionHeadersShape()
    ensures NoDuplicates(SectionHeaders)
    ensures forall h :: h in SectionHeaders ==> h != [] && IsLowerCase(h)
  {
  }

  /** The names a section map can use: the default bucket and the header tokens. */
  predicate IsSectionName(k: string) {
    k == "header" || k in SectionHeaders
  }

  /** The first header token from index `j` on that occurs in `line`. */
  function FirstHeaderFrom(line: string, j: nat): Option<string>
    requires j <= |SectionHeaders|
    decreases |SectionHeaders| - j
  {
    if j == |SectionHeaders| then None
    else if Contains(line, SectionHeaders[j]) then Some(SectionHeaders[j])
    else FirstHeaderFrom(line, j + 1)
  }

  /** The header a line switches to, if any: the first token, in list order, that it contains. */
  function FirstHeader(line: string): Option<string> {
    FirstHeaderFrom(line, 0)
  }

  /** The header found is the first token of the list that occurs; none is found when none occurs. */
  lemma {:induction false} FirstHeaderFromSpec(line: string, j: nat)
    requires j <= |SectionHeaders|
    ensures FirstHeaderFrom(line, j).None? <==> forall k :: j <= k < |SectionHeaders| ==> !Contains(line, SectionHeaders[k])
    ensures FirstHeaderFrom(line, j).Some? ==>
      (exists k :: j <= k < |SectionHeaders| &&
        FirstHeaderFrom(line, j).value == SectionHeaders[k] && Contains(line, SectionHeaders[k]) &&
        forall m :: j <= m < k ==> !Contains(line, SectionHeaders[m]))
    decreases |SectionHeaders| - j
  {
    if j < |SectionHeaders| && !Contains(line, SectionHeaders[j]) {
      FirstHeaderFromSpec(line, j + 1);
    }
  }

  /** The splitter's state: the section map built so far and the section lines go to. */
  datatype SplitState = SplitState(sections: Dict<string>, current: string)

  /** Before any line: only the `header` bucket, empty, and current. */
  const InitialState := SplitState([("header", "")], "header")

  /** One line of the splitter's loop. */
  function Step(st: SplitState, line: string): SplitState {
    var clean := Strip(line);
    if clean == [] then st
    else match FirstHeader(clean)
      case Some(h) => SplitState(Set(st.sections, h, ""), h)
      case None => SplitState(Set(st.sections, st.current, GetOr(st.sections, st.current, "") + clean + " "), st.current)
  }

  /** The state after the given lines, in order. */
  function Run(lines: seq<string>): SplitState
    decreases |lines|
  {
    if lines == [] then InitialState
    else Step(Run(lines[..|lines| - 1]), lines[|lines| - 1])
  }

  /** `split_into_sections` as a function: lower-case, split at newlines, run the lines. */
  function SectionsOf(text: string): Dict<string> {
    Run(SplitLines(Lower(text))).sections
  }

  /** A section body: lower-case and newline-free; when not empty it starts with a
      non-space character (the start of a stripped line) and ends in the space appended
      after a line. */
  predicate IsBody(v: string) {
    '\n' !in v && IsLowerCase(v) && (v == [] || (!IsSpace(v[0]) && v[|v| - 1] == ' '))
  }

  /** What holds of the splitter's state throughout. */
  predicate WellFormed(st: SplitState) {
    UniqueKeys(st.sections) &&
    |st.sections| > 0 && st.sections[0].0 == "header" &&
    (forall k :: k in Keys(st.sections) ==> IsSectionName(k)) &&
    HasKey(st.sections, st.current) &&
    (forall v :: v in Values(st.sections) ==> IsBody(v))
  }

  /** A line of lower-cased text: no newline, no upper-case letter. */
  predicate IsLine(line: string) {
    '\n' !in line && IsLowerCase(line)
  }

  /** A blank or whitespace-only line changes nothing. */
  lemma StepBlank(st: SplitState, line: string)
    requires forall j :: 0 <= j < |line| ==> IsSpace(line[j])
    ensures Step(st, line) == st
  {
    StripEmpty(line);
  }

  /** A line holding a header token switches to that header and empties its body; the line
      itself is not kept, and every other section is untouched. */
  lemma StepHeader(st: SplitState, line: string, h: string)
    requires Strip(line) != [] && FirstHeader(Strip(line)) == Some(h)
    ensures Step(st, line).current == h
    ensures Get(Step(st, line).sections, h) == Some("")
    ensures forall k :: k != h ==> Get(Step(st, line).sections, k) == Get(st.sections, k)
    ensures Keys(Step(st, line).sections) == if HasKey(st.sections, h) then Keys(st.sections) else Keys(st.sections) + [h]
  {
    forall k {
      SetGet(st.sections, h, "", k);
    }
    SetKeys(st.sections, h, "");
  }

  /** Any other line appends its stripped text and one space to the current section, and
      nothing else changes. */
  lemma StepBody(st: SplitState, line: string)
    requires WellFormed(st)
    requires Strip(line) != [] && FirstHeader(Strip(line)).None?
    ensures Step(st, line).current == st.current
    ensures Get(Step(st, line).sections, st.current) == Some(Get(st.sections, st.current).value + Strip(line) + " ")
    ensures forall k :: k != st.current ==> Get(Step(st, line).sections, k) == Get(st.sections, k)
    ensures Keys(Step(st, line).sections) == Keys(st.sections)
  {
    var v := GetOr(st.sections, st.current, "") + Strip(line) + " ";
    forall k {
      SetGet(st.sections, st.current, v, k);
    }
    SetKeys(st.sections, st.current, v);
  }

  /** Each step keeps the splitter's state well formed. */
  lemma StepWellFormed(st: SplitState, line: string)
    requires WellFormed(st) && IsLine(line)
    ensures WellFormed(Step(st, line))
  {
    var clean := Strip(line);
    if clean != [] {
      StripChars(line);
      match FirstHeader(clean)
      case Some(h) =>
        FirstHeaderFromSpec(clean, 0);
        SetHeaderWellFormed(st, h);
      case None =>
        SetBodyWellFormed(st, clean);
    }
  }

  /** Switching to a header keeps the state well formed. */
  lemma SetHeaderWellFormed(st: SplitState, h: string)
    requires WellFormed(st) && h in SectionHeaders
    ensures WellFormed(SplitState(Set(st.sections, h, ""), h))
  {
    var d := st.sections;
    SetKeys(d, h, "");
    SetUnique(d, h, "");
    SetValues(d, h, "");
    assert Keys(Set(d, h, ""))[0] == Keys(d)[0];
  }

  /** Appending a stripped line to the current section keeps the state well formed. */
  lemma SetBodyWellFormed(st: SplitState, clean: string)
    requires WellFormed(st) && IsLine(clean) && clean != [] && !IsSpace(clean[0])
    ensures var v := GetOr(st.sections, st.current, "") + clean + " ";
      WellFormed(SplitState(Set(st.sections, st.current, v), st.current))
  {
    var d := st.sections;
    var v := GetOr(d, st.current, "") + clean + " ";
    assert GetOr(d, st.current, "") in Values(d) by {
      var i :| 0 <= i < |d| && d[i].0 == st.current;
      GetAt(d, i);
    }
    assert IsBody(v);
    SetKeys(d, st.current, v);
    SetUnique(d, st.current, v);
    SetValues(d, st.current, v);
    assert Keys(Set(d, st.current, v))[0] == Keys(d)[0];
  }

  /** Running any lines keeps the state well formed. */
  lemma {:induction false} RunWellFormed(lines: seq<string>)
    requires forall k :: 0 <= k < |lines| ==> IsLine(lines[k])
    ensures WellFormed(Run(lines))
    decreases |lines|
  {
    if lines == [] {
      assert Keys(InitialState.sections) == ["header"];
      assert Values(InitialState.sections) == [""];
    } else {
      RunWellFormed(lines[..|lines| - 1]);
      StepWellFormed(Run(lines[..|lines| - 1]), lines[|lines| - 1]);
    }
  }

  /** The lines of lower-cased text are lines in the sense above. */
  lemma LinesOfLower(text: string)
    ensures forall k :: 0 <= k < |SplitLines(Lower(text))| ==> IsLine(SplitLines(Lower(text))[k])
  {
    var s := Lower(text);
    forall k, c | 0 <= k < |SplitLines(s)| && c in SplitLines(s)[k]
      ensures !IsUpper(c)
    {
      SplitLinesChars(s, k, c);
    }
  }

  /** The section map always has `header` first, uses only section names, never repeats a
      name, and holds bodies in the sense of `IsBody`. */
  lemma SectionsWellFormed(text: string)
    ensures var d := SectionsOf(text);
      UniqueKeys(d) && |d| > 0 && d[0].0 == "header" && HasKey(d, "header") &&
      (forall k :: k in Keys(d) ==> IsSectionName(k)) &&
      (forall v :: v in Values(d) ==> IsBody(v))
  {
    LinesOfLower(text);
    RunWellFormed(SplitLines(Lower(text)));
    assert Keys(SectionsOf(text))[0] == "header";
  }

  /** Empty text gives only the empty `header` section. */
  lemma SectionsOfEmpty()
    ensures SectionsOf("") == [("header", "")]
  {
    assert SplitLines(Lower("")) == [""];
    StepBlank(InitialState, "");
  }

  /** `split_into_sections`. */
  method SplitIntoSections(text: string) returns (sections: Dict<string>)
    ensures sections == SectionsOf(text)
    ensures HasKey(sections, "header") && forall k :: k in Keys(sections) ==> IsSectionName(k)
  {
    var lowered := Lower(text);
    sections := [("header", "")];
    var current := "header";
    var lines := SplitLines(lowered);
    var i := 0;
    while i < |lines|
      invariant 0 <= i <= |lines|
      invariant SplitState(sections, current) == Run(lines[..i])
    {
      assert lines[..i + 1][..i] == lines[..i];
      var clean := Strip(lines[i]);
      if clean == [] {
        i := i + 1;
        continue;
      }
      var headerFound := false;
      var j := 0;
      while j < |SectionHeaders|
        invariant 0 <= j <= |SectionHeaders|
        invariant !headerFound ==> FirstHeader(clean) == FirstHeaderFrom(clean, j)
        invariant !headerFound ==> SplitState(sections, current) == Run(lines[..i])
        invariant headerFound ==> SplitState(sections, current) == Step(Run(lines[..i]), lines[i])
        decreases if headerFound then 0 else |SectionHeaders| - j
      {
        var h := SectionHeaders[j];
        if Contains(clean, h) {
          current := h;
          sections := Set(sections, current, "");
          headerFound := true;
          break;
        }
        j := j + 1;
      }
      if !headerFound {
        sections := Set(sections, current, GetOr(sections, current, "") + clean + " ");
      }
      i := i + 1;
    }
    assert lines[..|lines|] == lines;
    SectionsWellFormed(text);
  }

  // ===================== Implicit signals =====================

  /** Indirect evidence for some competencies (the machine-learning ones): keywords per name. */
  const ImplicitSignalMap: map<string, seq<string>> := map[
    "model training" := ["trained", "training", "cnn", "lstm", "bert", "fine-tuned", "fine tuned", "fit model"],
    "evaluation metrics" := ["accuracy", "precision", "recall", "f1", "%", "auc", "latency"],
    "data preprocessing" := ["preprocess", "pre-processing", "feature extraction", "normalization", "tokenization", "cleaned data"],
    "deployment" := ["api", "fastapi", "flask", "lambda", "serverless", "tflite", "inference", "production"],
    "baseline comparison" := ["baseline", "compared", "improved over", "outperformed"],
    "error analysis" := ["error analysis", "failure cases", "misclassification"],
    "monitoring" := ["monitoring", "logging", "metrics tracking"]
  ]

  /** The keywords for a competency; none for a name outside the map. */
  function KeywordsFor(signal: string): seq<string> {
    if signal in ImplicitSignalMap then ImplicitSignalMap[signal] else []
  }

  /** `has_implicit_signal`: some keyword of the competency occurs in the lower-cased text. */
  function HasImplicitSignal(text: string, signal: string): (r: bool)
    ensures signal !in ImplicitSignalMap ==> !r
    ensures signal in ImplicitSignalMap ==> (r <==> exists k :: k in ImplicitSignalMap[signal] && Contains(Lower(text), k))
  {
    var lowered := Lower(text);
    exists k :: k in KeywordsFor(signal) && Contains(lowered, k)
  }

  /** Implicit detection ignores letter case. */
  lemma ImplicitSignalCaseInsensitive(text: string, signal: string)
    ensures HasImplicitSignal(text, signal) == HasImplicitSignal(Lower(text), signal)
  {
    LowerIdempotent(text);
  }

  /** More text never loses an implicit signal. */
  lemma ImplicitSignalExtend(text: string, signal: string, pre: string, post: string)
    requires HasImplicitSignal(text, signal)
    ensures HasImplicitSignal(pre + text + post, signal)
  {
    var k :| k in KeywordsFor(signal) && Contains(Lower(text), k);
    LowerAppend(pre, text);
    LowerAppend(pre + text, post);
    ContainsExtend(Lower(text), k, Lower(pre), Lower(post));
    assert Lower(pre + text + post) == Lower(pre) + Lower(text) + Lower(post);
  }

  /** The implicit table covers exactly the machine-learning profile's competencies. */
  lemma ImplicitSignalsAreMachineLearning()
    ensures Registry[1].0 == "machine_learning_engineer"
    ensures var p := Registry[1].1;
      forall s :: s in ImplicitSignalMap <==> s in p.mustHave || s in p.strongSignals
  {
  }

  // ===================== Scoring =====================

  datatype Diagnostics = Diagnostics(missingMustHave: seq<string>, weakSignals: seq<string>, strengths: seq<string>)

  datatype ScoreReport = ScoreReport(score: int, reasons: seq<Reason>, diagnostics: Diagnostics)

  /** The four reasons `score_resume` can record, in rule order. */
  datatype Reason = MissingReason | WeakReason | SkillsReason | ProjectsReason

  /** The text recorded for each reason. */
  function Message(r: Reason): string {
    match r
    case MissingReason => "Core role expectations are present only partially or lack clear framing."
    case WeakReason => "Advanced role signals are present but not explicitly articulated."
    case SkillsReason => "Skills section is overloaded and may dilute ATS signals."
    case ProjectsReason => "Projects could benefit from deeper applied context."
  }

  /** Distinct reasons have distinct texts. */
  lemma MessageInjective(r1: Reason, r2: Reason)
    ensures Message(r1) == Message(r2) ==> r1 == r2
  {
    MessageEnding(r1);
    MessageEnding(r2);
  }

  /** The letter before the closing full stop tells the reason texts apart. */
  lemma MessageEnding(r: Reason)
    ensures |Message(r)| >= 2
    ensures Message(r)[|Message(r)| - 2] == match r
      case MissingReason => 'g'
      case WeakReason => 'd'
      case SkillsReason => 's'
      case ProjectsReason => 't'
  {
  }

  /** A reason list without repeats gives a list of texts without repeats. */
  lemma MessagesDistinct(rs: seq<Reason>)
    requires NoDuplicates(rs)
    ensures forall i, j :: 0 <= i < j < |rs| ==> Message(rs[i]) != Message(rs[j])
  {
    forall i, j | 0 <= i < j < |rs|
      ensures Message(rs[i]) != Message(rs[j])
    {
      MessageInjective(rs[i], rs[j]);
    }
  }

  /** Every reason, in the order they can be recorded. */
  const AllReasons := [MissingReason, WeakReason, SkillsReason, ProjectsReason]

  /** A competency counts as shown when its name, or one of its implicit keywords, occurs. */
  predicate Detected(fullText: string, item: string) {
    Contains(fullText, item) || HasImplicitSignal(fullText, item)
  }

  /** The items whose detection is `found`, in their order. */
  function Select(items: seq<string>, fullText: string, found: bool): seq<string>
    decreases |items|
  {
    if items == [] then []
    else
      var last := items[|items| - 1];
      Select(items[..|items| - 1], fullText, found) + (if Detected(fullText, last) == found then [last] else [])
  }

  /** Selecting from one more item: that item is appended when its outcome is the wanted one. */
  lemma SelectSnoc(items: seq<string>, fullText: string, found: bool, x: string)
    ensures Select(items + [x], fullText, found) ==
      Select(items, fullText, found) + (if Detected(fullText, x) == found then [x] else [])
  {
    assert (items + [x])[..|items|] == items;
  }

  /** The selected items are exactly those with the wanted detection outcome. */
  lemma {:induction false} SelectMembers(items: seq<string>, fullText: string, found: bool)
    ensures forall x :: x in Select(items, fullText, found) <==> x in items && Detected(fullText, x) == found
    decreases |items|
  {
    if items != [] {
      var init := items[..|items| - 1];
      SelectMembers(init, fullText, found);
      assert items == init + [items[|items| - 1]];
    }
  }

  /** Nothing is selected when no item has the wanted detection outcome. */
  lemma {:induction false} SelectNone(items: seq<string>, fullText: string, found: bool)
    requires forall x :: x in items ==> Detected(fullText, x) != found
    ensures Select(items, fullText, found) == []
    decreases |items|
  {
    if items != [] {
      SelectNone(items[..|items| - 1], fullText, found);
    }
  }

  /** Selection keeps the input order. */
  lemma {:induction false} SelectOrder(items: seq<string>, fullText: string, found: bool)
    ensures IsSubsequence(Select(items, fullText, found), items)
    decreases |items|
  {
    if items == [] {
      SubsequenceEmpty(items);
    } else {
      var init := items[..|items| - 1];
      var last := items[|items| - 1];
      SelectOrder(init, fullText, found);
      SubsequenceSnoc(Select(init, fullText, found), init, last);
      assert items == init + [last];
      if Detected(fullText, last) == found {
        assert Select(items, fullText, found) == Select(init, fullText, found) + [last];
      } else {
        assert Select(items, fullText, found) == Select(init, fullText, found);
      }
    }
  }

  /** Every item is selected on exactly one side. */
  lemma {:induction false} SelectSplit(items: seq<string>, fullText: string)
    ensures |Select(items, fullText, true)| + |Select(items, fullText, false)| == |items|
    decreases |items|
  {
    if items != [] {
      SelectSplit(items[..|items| - 1], fullText);
    }
  }

  /** The diagnostics for a profile: missing must-haves, weak strong signals, and strengths
      (detected must-haves, then detected strong signals). */
  function Diagnose(profile: RoleProfile, fullText: string): Diagnostics {
    Diagnostics(
      Select(profile.mustHave, fullText, false),
      Select(profile.strongSignals, fullText, false),
      Select(profile.mustHave, fullText, true) + Select(profile.strongSignals, fullText, true))
  }

  /** The skills section holds more than 800 characters. */
  predicate SkillsOverloaded(sections: Dict<string>) {
    |GetOr(sections, "skills", "")| > 800
  }

  /** A projects section exists and has fewer than 120 words. */
  predicate ProjectsThin(sections: Dict<string>) {
    HasKey(sections, "projects") && WordCount(GetOr(sections, "projects", "")) < 120
  }

  function Min(a: int, b: int): int {
    if a <= b then a else b
  }

  /** The running score before the guardrail. */
  function RawScore(missing: nat, weak: nat, overloaded: bool, thin: bool): (s: int)
    ensures s <= 100
  {
    100 - 12 * missing - Min(4 * weak, 16) - (if overloaded then 8 else 0) - (if thin then 6 else 0)
  }

  /** The reasons, each recorded at most once, in the order of the rules that trigger them. */
  function Reasons(missing: bool, weak: bool, overloaded: bool, thin: bool): seq<Reason> {
    (if missing then [MissingReason] else []) + (if weak then [WeakReason] else []) +
    (if overloaded then [SkillsReason] else []) + (if thin then [ProjectsReason] else [])
  }

  /** The guardrail and the floor: a flagged resume above 85 reports 78; nothing below 0. */
  function Guarded(raw: int, reasons: seq<Reason>): (s: int)
    requires raw <= 100
    ensures 0 <= s <= 100
    ensures reasons != [] && raw > 85 ==> s == 78
    ensures (reasons == [] || raw <= 85) ==> s == if raw < 0 then 0 else raw
  {
    var guarded := if reasons != [] && raw > 85 then 78 else raw;
    if guarded < 0 then 0 else guarded
  }

  /** The final score for the given counts and section flags. */
  function FinalScore(missing: nat, weak: nat, overloaded: bool, thin: bool): (s: int)
    ensures 0 <= s <= 100
  {
    Guarded(RawScore(missing, weak, overloaded, thin), Reasons(missing > 0, weak > 0, overloaded, thin))
  }

  /** The report `score_resume` builds once the profile is chosen. */
  function ScoreWith(profile: RoleProfile, resumeText: string, sections: Dict<string>): ScoreReport {
    var d := Diagnose(profile, Lower(resumeText));
    var m, w := |d.missingMustHave|, |d.weakSignals|;
    var o, t := SkillsOverloaded(sections), ProjectsThin(sections);
    ScoreReport(FinalScore(m, w, o, t), Reasons(m > 0, w > 0, o, t), d)
  }

  /** `score_resume` as a function. */
  function Score(resumeText: string, sections: Dict<string>, targetRole: string): ScoreReport {
    ScoreWith(ResolveRoleProfile(targetRole), resumeText, sections)
  }

  /** `score_resume`: resolve the profile, then score against it. */
  method ScoreResume(resumeText: string, sections: Dict<string>, targetRole: string) returns (report: ScoreReport)
    ensures report == Score(resumeText, sections, targetRole)
    ensures 0 <= report.score <= 100
  {
    var profile := ResolveRoleProfile(targetRole);
    report := ScoreAgainst(profile, resumeText, sections);
  }

  /** The rest of `score_resume`: the must-have pass, the strong-signal pass, the section
      rules, the guardrail and the floor, in that order. */
  method ScoreAgainst(profile: RoleProfile, resumeText: string, sections: Dict<string>) returns (report: ScoreReport)
    ensures report == ScoreWith(profile, resumeText, sections)
    ensures 0 <= report.score <= 100
  {
    var fullText := Lower(resumeText);
    var reasons: seq<Reason> := [];
    var missing, strengths, score := CheckMustHaves(profile.mustHave, fullText);
    if missing != [] {
      reasons := reasons + [MissingReason];
    }
    var weak;
    weak, strengths := CheckStrongSignals(profile.strongSignals, fullText, strengths);
    if weak != [] {
      score := score - Min(|weak| * 4, 16);
      reasons := reasons + [WeakReason];
    }
    assert reasons == Reasons(|missing| > 0, |weak| > 0, false, false);
    assert score == RawScore(|missing|, |weak|, false, false);

    if |GetOr(sections, "skills", "")| > 800 {
      score := score - 8;
      reasons := reasons + [SkillsReason];
    }
    assert reasons == Reasons(|missing| > 0, |weak| > 0, SkillsOverloaded(sections), false);
    assert score == RawScore(|missing|, |weak|, SkillsOverloaded(sections), false);
    if HasKey(sections, "projects") && WordCount(GetOr(sections, "projects", "")) < 120 {
      score := score - 6;
      reasons := reasons + [ProjectsReason];
    }

    assert reasons == Reasons(|missing| > 0, |weak| > 0, SkillsOverloaded(sections), ProjectsThin(sections));
    assert score == RawScore(|missing|, |weak|, SkillsOverloaded(sections), ProjectsThin(sections));
    ScoreWithParts(profile, resumeText, sections, missing, weak, strengths);
    if reasons != [] && score > 85 {
      score := 78;
    }
    if score < 0 {
      score := 0;
    }
    report := ScoreReport(score, reasons, Diagnostics(missing, weak, strengths));
  }

  /** The must-have pass of `score_resume`: each must-have is a strength when detected and
      missing otherwise, and every miss costs 12 points. */
  method CheckMustHaves(mustHave: seq<string>, fullText: string) returns (missing: seq<string>, strengths: seq<string>, score: int)
    ensures missing == Select(mustHave, fullText, false)
    ensures strengths == Select(mustHave, fullText, true)
    ensures score == 100 - 12 * |missing|
  {
    missing, strengths, score := [], [], 100;
    var i := 0;
    while i < |mustHave|
      invariant 0 <= i <= |mustHave|
      invariant missing == Select(mustHave[..i], fullText, false)
      invariant strengths == Select(mustHave[..i], fullText, true)
      invariant score == 100 - 12 * |missing|
    {
      assert mustHave[..i + 1] == mustHave[..i] + [mustHave[i]];
      SelectSnoc(mustHave[..i], fullText, false, mustHave[i]);
      SelectSnoc(mustHave[..i], fullText, true, mustHave[i]);
      var item := mustHave[i];
      if Detected(fullText, item) {
        strengths := strengths + [item];
      } else {
        missing := missing + [item];
        score := score - 12;
      }
      i := i + 1;
    }
    assert mustHave[..|mustHave|] == mustHave;
  }

  /** The strong-signal pass of `score_resume`: each strong signal is appended to the strengths
      when detected and is weak otherwise. */
  method CheckStrongSignals(strongSignals: seq<string>, fullText: string, strengths0: seq<string>)
    returns (weak: seq<string>, strengths: seq<string>)
    ensures weak == Select(strongSignals, fullText, false)
    ensures strengths == strengths0 + Select(strongSignals, fullText, true)
  {
    weak, strengths := [], strengths0;
    var j := 0;
    while j < |strongSignals|
      invariant 0 <= j <= |strongSignals|
      invariant weak == Select(strongSignals[..j], fullText, false)
      invariant strengths == strengths0 + Select(strongSignals[..j], fullText, true)
    {
      assert strongSignals[..j + 1] == strongSignals[..j] + [strongSignals[j]];
      SelectSnoc(strongSignals[..j], fullText, false, strongSignals[j]);
      SelectSnoc(strongSignals[..j], fullText, true, strongSignals[j]);
      var signal := strongSignals[j];
      if Detected(fullText, signal) {
        strengths := strengths + [signal];
      } else {
        weak := weak + [signal];
      }
      j := j + 1;
    }
    assert strongSignals[..|strongSignals|] == strongSignals;
  }

  /** `ScoreWith` in terms of the lists the two loops of `score_resume` build. */
  lemma ScoreWithParts(profile: RoleProfile, resumeText: string, sections: Dict<string>,
                       missing: seq<string>, weak: seq<string>, strengths: seq<string>)
    requires missing == Select(profile.mustHave, Lower(resumeText), false)
    requires weak == Select(profile.strongSignals, Lower(resumeText), false)
    requires strengths == Select(profile.mustHave, Lower(resumeText), true) +
                          Select(profile.strongSignals, Lower(resumeText), true)
    ensures var o, t := SkillsOverloaded(sections), ProjectsThin(sections);
      ScoreWith(profile, resumeText, sections) ==
      ScoreReport(Guarded(RawScore(|missing|, |weak|, o, t), Reasons(|missing| > 0, |weak| > 0, o, t)),
                  Reasons(|missing| > 0, |weak| > 0, o, t), Diagnostics(missing, weak, strengths))
  {
  }

  // ----- Properties of the score -----

  /** The diagnostics partition the profile's lists: each must-have is either a strength or
      missing, each strong signal either a strength or weak, never both; the missing and weak
      lists keep the profile's order. */
  lemma DiagnosticsPartition(resumeText: string, sections: Dict<string>, targetRole: string)
    ensures var p := ResolveRoleProfile(targetRole);
      var d := Score(resumeText, sections, targetRole).diagnostics;
      (forall x :: x in p.mustHave ==> (x in d.strengths <==> x !in d.missingMustHave)) &&
      (forall x :: x in p.strongSignals ==> (x in d.strengths <==> x !in d.weakSignals)) &&
      (forall x :: x in d.strengths ==> x in p.mustHave || x in p.strongSignals) &&
      |d.missingMustHave| + |Select(p.mustHave, Lower(resumeText), true)| == |p.mustHave| &&
      |d.strengths| + |d.missingMustHave| + |d.weakSignals| == |p.mustHave| + |p.strongSignals| &&
      IsSubsequence(d.missingMustHave, p.mustHave) && IsSubsequence(d.weakSignals, p.strongSignals)
  {
    var p := ResolveRoleProfile(targetRole);
    var t := Lower(resumeText);
    SelectMembers(p.mustHave, t, true);
    SelectMembers(p.mustHave, t, false);
    SelectMembers(p.strongSignals, t, true);
    SelectMembers(p.strongSignals, t, false);
    SelectSplit(p.mustHave, t);
    SelectSplit(p.strongSignals, t);
    SelectOrder(p.mustHave, t, false);
    SelectOrder(p.strongSignals, t, false);
  }

  /** The score before the guardrail: 12 points off per must-have not detected, 4 per strong
      signal not detected up to 16, 8 for an overloaded skills section and 6 for thin
      projects. It is 100 exactly when no reason is recorded. */
  function RunningScore(resumeText: string, sections: Dict<string>, targetRole: string): (r: int)
    ensures var p, t := ResolveRoleProfile(targetRole), Lower(resumeText);
      var found, shown := |Select(p.mustHave, t, true)|, |Select(p.strongSignals, t, true)|;
      r == 100 - 12 * (|p.mustHave| - found) - Min(4 * (|p.strongSignals| - shown), 16)
             - (if SkillsOverloaded(sections) then 8 else 0) - (if ProjectsThin(sections) then 6 else 0)
    ensures r == 100 <==> Score(resumeText, sections, targetRole).reasons == []
  {
    var p, t := ResolveRoleProfile(targetRole), Lower(resumeText);
    SelectSplit(p.mustHave, t);
    SelectSplit(p.strongSignals, t);
    var d := Score(resumeText, sections, targetRole).diagnostics;
    RawScore(|d.missingMustHave|, |d.weakSignals|, SkillsOverloaded(sections), ProjectsThin(sections))
  }

  /** The score is within [0, 100]; with a reason recorded and a running score above 85 it is
      exactly 78; otherwise it is the running score floored at 0. Each reason appears at most
      once, in rule order, and exactly when its rule fires. */
  lemma ScoreGuardrail(resumeText: string, sections: Dict<string>, targetRole: string)
    ensures var r := Score(resumeText, sections, targetRole);
      var raw := RunningScore(resumeText, sections, targetRole);
      0 <= r.score <= 100 &&
      (r.reasons != [] && raw > 85 ==> r.score == 78) &&
      (r.reasons == [] ==> r.score == raw) &&
      NoDuplicates(r.reasons) && IsSubsequence(r.reasons, AllReasons) &&
      (MissingReason in r.reasons <==> r.diagnostics.missingMustHave != []) &&
      (WeakReason in r.reasons <==> r.diagnostics.weakSignals != []) &&
      (SkillsReason in r.reasons <==> SkillsOverloaded(sections)) &&
      (ProjectsReason in r.reasons <==> ProjectsThin(sections))
  {
    var r := Score(resumeText, sections, targetRole);
    var d := r.diagnostics;
    ReasonsOrdered(d.missingMustHave != [], d.weakSignals != [], SkillsOverloaded(sections), ProjectsThin(sections));
    ReasonsRecorded(d.missingMustHave != [], d.weakSignals != [], SkillsOverloaded(sections), ProjectsThin(sections));
  }

  /** Each reason is recorded exactly when its rule fires. */
  lemma ReasonsRecorded(m: bool, w: bool, o: bool, t: bool)
    ensures var rs := Reasons(m, w, o, t);
      (MissingReason in rs <==> m) && (WeakReason in rs <==> w) &&
      (SkillsReason in rs <==> o) && (ProjectsReason in rs <==> t) &&
      (rs == [] <==> !m && !w && !o && !t)
  {
  }

  /** The reason list is an ordered selection of the four reasons, without repeats. */
  lemma ReasonsOrdered(m: bool, w: bool, o: bool, t: bool)
    ensures var rs := Reasons(m, w, o, t);
      NoDuplicates(rs) && IsSubsequence(rs, AllReasons)
  {
    var rs := Reasons(m, w, o, t);
    var a3: seq<Reason> := [ProjectsReason];
    var a2 := [SkillsReason] + a3;
    var a1 := [WeakReason] + a2;
    assert AllReasons == [MissingReason] + a1;
    var tail3: seq<Reason> := if t then [ProjectsReason] else [];
    var tail2 := (if o then [SkillsReason] else []) + tail3;
    var tail1 := (if w then [WeakReason] else []) + tail2;
    assert rs == (if m then [MissingReason] else []) + tail1;
    if t {
      SubsequenceCons(ProjectsReason, [], []);
    } else {
      SubsequenceEmpty(a3);
    }
    if o {
      SubsequenceCons(SkillsReason, tail3, a3);
    } else {
      assert tail2 == tail3;
      SubsequenceSkip(SkillsReason, tail3, a3);
    }
    if w {
      SubsequenceCons(WeakReason, tail2, a2);
    } else {
      assert tail1 == tail2;
      SubsequenceSkip(WeakReason, tail2, a2);
    }
    if m {
      SubsequenceCons(MissingReason, tail1, a1);
    } else {
      assert rs == tail1;
      SubsequenceSkip(MissingReason, tail1, a1);
    }
    SubsequenceNoDuplicates(rs, AllReasons);
  }

  /** Adding a missing must-have can raise the score: a running score of 96 with a reason is
      pinned to 78, while one more miss gives a running 84, which is reported as it is. */
  lemma ScoreNotMonotone()
    ensures FinalScore(0, 1, false, false) == 78
    ensures FinalScore(1, 1, false, false) == 84
  {
    assert Reasons(false, true, false, false) != [];
    assert Reasons(true, true, false, false) != [];
  }

  /** One more missing must-have, everything else fixed, raises the score exactly when the
      guardrail pinned the old score to 78 and the new running score lies in (78, 85]. */
  lemma ScoreMonotoneInMissing(missing: nat, weak: nat, overloaded: bool, thin: bool)
    ensures FinalScore(missing + 1, weak, overloaded, thin) > FinalScore(missing, weak, overloaded, thin) <==>
      Reasons(missing > 0, weak > 0, overloaded, thin) != [] &&
      RawScore(missing, weak, overloaded, thin) > 85 &&
      78 < RawScore(missing + 1, weak, overloaded, thin) <= 85
  {
    ReasonsOrdered(missing > 0, weak > 0, overloaded, thin);
    ReasonsRecorded(missing > 0, weak > 0, overloaded, thin);
    ReasonsOrdered(true, weak > 0, overloaded, thin);
    ReasonsRecorded(true, weak > 0, overloaded, thin);
  }

  /** The same for one more weak signal. */
  lemma ScoreMonotoneInWeak(missing: nat, weak: nat, overloaded: bool, thin: bool)
    ensures FinalScore(missing, weak + 1, overloaded, thin) > FinalScore(missing, weak, overloaded, thin) <==>
      Reasons(missing > 0, weak > 0, overloaded, thin) != [] &&
      RawScore(missing, weak, overloaded, thin) > 85 &&
      78 < RawScore(missing, weak + 1, overloaded, thin) <= 85
  {
    ReasonsOrdered(missing > 0, weak > 0, overloaded, thin);
    ReasonsRecorded(missing > 0, weak > 0, overloaded, thin);
    ReasonsOrdered(missing > 0, true, overloaded, thin);
    ReasonsRecorded(missing > 0, true, overloaded, thin);
  }

  /** When every must-have and every strong signal of the profile occurs literally, nothing is
      missing or weak and neither of the two role reasons is recorded. */
  lemma AllSignalsPresent(profile: RoleProfile, resumeText: string, sections: Dict<string>)
    requires forall x :: x in profile.mustHave || x in profile.strongSignals ==> Contains(Lower(resumeText), x)
    ensures var r := ScoreWith(profile, resumeText, sections);
      r.diagnostics.missingMustHave == [] && r.diagnostics.weakSignals == [] &&
      MissingReason !in r.reasons && WeakReason !in r.reasons
  {
    var t := Lower(resumeText);
    SelectNone(profile.mustHave, t, false);
    SelectNone(profile.strongSignals, t, false);
    ReasonsRecorded(false, false, SkillsOverloaded(sections), ProjectsThin(sections));
  }

  /** A generic role with neither a skills nor a projects section scores 100 with no reasons
      and empty diagnostics. */
  lemma GenericWithoutSections(resumeText: string, sections: Dict<string>, targetRole: string)
    requires ResolveRoleKey(targetRole) == "generic"
    requires !HasKey(sections, "skills") && !HasKey(sections, "projects")
    ensures var r := Score(resumeText, sections, targetRole);
      r.score == 100 && r.reasons == [] && r.diagnostics == Diagnostics([], [], [])
  {
    RegistryUnique();
    GetAt(Registry, 10);
  }
}
