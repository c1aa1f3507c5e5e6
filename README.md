# Resume scoring core in Dafny

This project models the deterministic core of a resume-evaluation tool. The model covers five parts:

- **Role profile registry** (`RoleProfiles`). This is the constant table of role profiles. Each profile has must-have competencies, strong signals and red flags. The resolver maps a free-text job title to one of the profiles: a fixed chain of substring tests is tried in order, the first match wins, and `generic` is the fallback.
- **Section splitter** (`Analyzer`). This is the line-by-line state machine that cuts lower-cased resume text into sections under a "current section" pointer.
- **Implicit signal detector and scoring engine** (`Analyzer`). The scoring engine takes 100 points and applies, in order: must-have and strong-signal detection, the section rules, a guardrail that pins flagged scores above 85 to 78, and a floor at 0.
- **Secondary scores and role-fit ranking** (`EvaluationEngine`). These are the ATS score with a floor of 40 and role readiness clamped to [30, 95]. The ranking computes the affinity of every registry role, sorts the roles stably by descending affinity and keeps the first three.
- **Improvement mapper** (`ImprovementEngine`). For every missing or weak competency that the template library knows, it produces one suggestion. The missing group comes first and each group keeps its input order.

Three modules support these:

- `Text` holds ASCII models of `lower`, `strip`, `split`, `isdigit`, substring search and `re.split` on newlines.
- `OrderedDict` models Python's insertion-ordered dictionaries as association lists. Assigning to an existing key keeps its position; a new key is appended.
- `Seqs` holds generic facts about duplicates and subsequences.

Each imperative function of the source is a `method` with the same loops, proved equal to a specification function. The properties are then proved about those functions:

- `split_into_sections` is `SplitIntoSections` against `SectionsOf`.
- `score_resume` is `ScoreResume` against `Score`.
- `recommend_best_roles` is `RecommendBestRoles` against `Recommended`.
- `generate_improvements` is `GenerateImprovements` against `Improvements`.

The straight-line arithmetic functions are Dafny functions: `AtsScore` and `RoleReadiness`. So are the resolver and the implicit-signal lookup.

Two facts about the program are worth stating up front:

- **The score is not monotone in the number of missing must-haves.** This is because of the guardrail. A flagged resume with a running score of 96 reports 78. With one more must-have missing, the running score is 84, and 84 is reported as it is. `Analyzer.ScoreNotMonotone` shows this case. `Analyzer.ScoreMonotoneInMissing` and `Analyzer.ScoreMonotoneInWeak` characterise exactly when the score rises.
- **The registry has eleven entries, `generic` included.** `generic` takes part in the ranking, with affinity 0.

## Model

| member | source | states |
|---|---|---|
| RoleProfiles.RegistryKeyList | role_profiles.py:3-178 | the registry keys, in their written order: ten roles, then `generic` |
| RoleProfiles.RegistryUnique | role_profiles.py:3-178 | no role key occurs twice in the registry |
| RoleProfiles.RegistryMustHavesDistinct | role_profiles.py:3-178 | within every profile the must-have list has no duplicates |
| RoleProfiles.RegistrySignalsDistinct | role_profiles.py:3-178 | within every profile the strong-signal list has no duplicates |
| RoleProfiles.RegistryListsDisjoint | role_profiles.py:3-178 | no competency is both a must-have and a strong signal of the same profile |
| RoleProfiles.KeyForTitle | role_profiles.py:187-204 | the chain of substring tests on a lower-cased title, in source order; the first test that holds gives the key, and `generic` is the fallback (`ResolveIsFirstMatch` proves it equal to the rule table) |
| RoleProfiles.ResolveRoleKey | role_profiles.py:185-204 | the key the resolver picks: the chain applied to the lower-cased title |
| RoleProfiles.ResolveRoleProfile | role_profiles.py:181-204 | `resolve_role_profile`: the registry's profile under the resolved key (`ResolveTotal` shows that the lookup always succeeds) |
| RoleProfiles.ResolveKeyRegistered | role_profiles.py:181-204 | the resolver's key is a key of the registry for every title |
| RoleProfiles.ResolveTotal | role_profiles.py:181-204 | resolution is total: the returned profile is the registry's value under the resolved key, so it is one of the table's values |
| RoleProfiles.ResolveIsFirstMatch | role_profiles.py:187-204 | the if-chain equals an independent first-match over the rule table in the order ML, data scientist, backend, frontend, product, business analyst, security, software/developer, falling back to `generic` |
| RoleProfiles.FirstMatchWins | role_profiles.py:187-202 | when rule i matches and no earlier rule does, rule i decides the key |
| RoleProfiles.FirstMatchFallback | role_profiles.py:204 | when no rule matches, the fallback is returned |
| RoleProfiles.ResolveCaseInsensitive | role_profiles.py:185 | resolving a title and resolving its lower-cased form give the same key and the same profile |
| RoleProfiles.ResolveMachineLearningFirst | role_profiles.py:187-188 | any title whose lower-cased form contains "machine learning" or "ml" resolves to `machine_learning_engineer`, whatever else it contains |
| RoleProfiles.HtmlIsMachineLearning | role_profiles.py:187-188 | "HTML Developer" resolves to the machine-learning profile, because "html" contains "ml" |
| RoleProfiles.MachineLearningProductManager | role_profiles.py:187-196 | "Machine Learning Product Manager" resolves to the machine-learning profile, because the ML test runs before the product test |
| RoleProfiles.ResolvesToBackend | role_profiles.py:187-192 | a title that fails the ML and data-scientist tests and mentions "backend" resolves to `backend_engineer` |
| RoleProfiles.SeniorBackendIsBackend | role_profiles.py:187-192 | "Senior Backend Engineer" and "backend" resolve to the same key and the same profile |
| RoleProfiles.ResolveGenericFallback | role_profiles.py:173-204 | a title that matches none of the tokens resolves to `generic`, whose must-have and strong-signal lists are empty |
| RoleProfiles.FirstMatch | role_profiles.py:187-204 | the reference resolution: the key of the first rule in a rule table whose token occurs, or the fallback |
| Analyzer.SplitIntoSections | analyzer.py:21-44 | the splitter loop computes the section map `SectionsOf(text)`; the map contains "header" and only section names as keys |
| Analyzer.SectionsWellFormed | analyzer.py:12-44 | the section map starts with "header", has unique keys that are "header" or one of the five header tokens, and every body is lower case and newline-free, and is either empty or starts with a non-space character and ends in a space |
| Analyzer.SectionsOfEmpty | analyzer.py:21-44 | empty text gives the single section "header" with an empty body |
| Analyzer.SectionHeadersShape | analyzer.py:12-18 | the five header tokens are distinct, non-empty and lower case, so each can match a lower-cased line |
| Analyzer.FirstHeader | analyzer.py:34-39 | the inner header loop with its `break`: the first header token, in list order, that occurs in the stripped line |
| Analyzer.Step | analyzer.py:29-42 | one iteration of the line loop: a blank line is skipped, a header line switches to that header with an empty body, and any other line is appended with one space to the current section |
| Analyzer.Run | analyzer.py:23-42 | the loop over all lines from the initial state, whose only section is an empty "header" with "header" current |
| Analyzer.SectionsOf | analyzer.py:21-44 | `split_into_sections` as a function: lower-case the text, split it at newlines and run the lines |
| Analyzer.FirstHeaderFromSpec | analyzer.py:34-39 | the header detected in a line is the first token in list order that occurs in it; none is detected exactly when no token occurs |
| Analyzer.StepBlank | analyzer.py:29-31 | a blank or whitespace-only line leaves the state unchanged |
| Analyzer.StepHeader | analyzer.py:33-39 | a line with a header token makes that header current and resets its body to empty; the line is not kept, other sections are untouched, and a new header is appended to the key order |
| Analyzer.StepBody | analyzer.py:41-42 | a non-header line appends exactly its stripped text and one space to the current section; nothing else changes |
| Analyzer.StepWellFormed | analyzer.py:28-42 | each step of the loop preserves the well-formedness invariant of the state |
| Analyzer.RunWellFormed | analyzer.py:28-42 | the whole loop preserves the well-formedness invariant |
| Analyzer.LinesOfLower | analyzer.py:22-26 | the lines of the lower-cased text are newline-free and lower case |
| Analyzer.HasImplicitSignal | analyzer.py:82-85 | false for a signal with no entry in the implicit map; otherwise true exactly when some keyword of the signal occurs in the lower-cased text |
| Analyzer.ImplicitSignalCaseInsensitive | analyzer.py:83 | implicit detection gives the same answer on the text and on its lower-cased form |
| Analyzer.ImplicitSignalExtend | analyzer.py:85 | adding text before or after never loses an implicit signal |
| Analyzer.ImplicitSignalsAreMachineLearning | analyzer.py:51-79 | the implicit map's keys are exactly the machine-learning profile's must-haves and strong signals |
| Analyzer.KeywordsFor | analyzer.py:84 | the keywords of a competency, or none when the implicit map has no entry for it |
| Analyzer.Detected | analyzer.py:118 | a competency is detected when it occurs literally or through one of its implicit keywords |
| Analyzer.Select | analyzer.py:117-122 | one detection pass: the items whose detection outcome is the wanted one, in input order |
| Analyzer.SelectMembers | analyzer.py:117-122 | a detection pass selects exactly the items with the wanted outcome |
| Analyzer.SelectOrder | analyzer.py:117-122 | a detection pass keeps the input order |
| Analyzer.SelectSplit | analyzer.py:117-122 | every item lands on exactly one side of a detection pass |
| Analyzer.CheckMustHaves | analyzer.py:117-122 | the must-have loop puts each detected item in the strengths and each undetected item in the missing list, in order, and takes 12 points per miss |
| Analyzer.CheckStrongSignals | analyzer.py:132-136 | the strong-signal loop appends each detected item to the strengths and puts each undetected item in the weak list, in order |
| Analyzer.Diagnose | analyzer.py:106-136 | the diagnostics: the undetected must-haves, the undetected strong signals, and the detected must-haves followed by the detected strong signals |
| Analyzer.SkillsOverloaded | analyzer.py:147 | the skills body, or "" when there is none, is longer than 800 characters |
| Analyzer.ProjectsThin | analyzer.py:151 | a projects section exists and has fewer than 120 words |
| Analyzer.Reasons | analyzer.py:124-153 | the reasons in rule order: missing, weak, skills, projects, each present exactly when its rule fires |
| Analyzer.ScoreWith | analyzer.py:100-163 | the report for a given profile: the guarded final score, the reasons and the diagnostics of the lower-cased text |
| Analyzer.Score | analyzer.py:92-163 | `score_resume` as a function: `ScoreWith` on the profile resolved from the target role |
| Analyzer.Message | analyzer.py:124-153 | the text the source records for each reason |
| Analyzer.MessageInjective | analyzer.py:124-153 | distinct reasons have distinct texts |
| Analyzer.MessagesDistinct | analyzer.py:124-153 | the texts of a reason list without repeats contain no repeats, so the duplicate-freedom of `ScoreGuardrail` holds of the recorded strings |
| Analyzer.ScoreAgainst | analyzer.py:100-163 | for a given profile, the penalties, reasons, guardrail and floor compute `ScoreWith(profile, ...)`, with a score in [0, 100] |
| Analyzer.ScoreResume | analyzer.py:92-163 | the method computes `Score(...)`, with the profile resolved from the target role, and a score in [0, 100] |
| Analyzer.RawScore | analyzer.py:103-153 | the running score before the guardrail never exceeds 100 |
| Analyzer.RunningScore | analyzer.py:103-153 | the score before the guardrail for the resolved profile: 100, minus 12 per must-have not detected, minus min(4 per strong signal not detected, 16), minus 8 for an overloaded skills section, minus 6 for thin projects; it is 100 exactly when no reason is recorded |
| Analyzer.Guarded | analyzer.py:158-161 | the result is in [0, 100]; a flagged score above 85 becomes exactly 78; otherwise it is the running score floored at 0 |
| Analyzer.FinalScore | analyzer.py:103-161 | the final score always lies in [0, 100] |
| Analyzer.DiagnosticsPartition | analyzer.py:117-136 | each must-have is a strength or missing, never both; each strong signal is a strength or weak, never both; strengths come only from the profile; the counts add up; missing and weak keep profile order |
| Analyzer.ScoreGuardrail | analyzer.py:124-161 | the score is in [0, 100]; with reasons and a running score (`RunningScore`) above 85 it is 78; with no reasons it is the running score; each reason occurs at most once, in rule order, and exactly when its rule fires |
| Analyzer.ReasonsRecorded | analyzer.py:124-153 | each of the four reasons is recorded exactly when its rule fires; there are no reasons exactly when no rule fires |
| Analyzer.ReasonsOrdered | analyzer.py:124-153 | the reasons are a duplicate-free subsequence of the four reasons in rule order |
| Analyzer.ScoreNotMonotone | analyzer.py:117-161 | one more missing must-have can raise the score: 78 with no miss becomes 84 with one miss |
| Analyzer.ScoreMonotoneInMissing | analyzer.py:117-161 | one more missing must-have raises the score exactly when the guardrail pinned the old score to 78 and the new running score lies in (78, 85] |
| Analyzer.ScoreMonotoneInWeak | analyzer.py:132-161 | one more weak signal raises the score exactly under the same guardrail condition |
| Analyzer.AllSignalsPresent | analyzer.py:117-142 | when every must-have and strong signal occurs literally, nothing is missing or weak and neither role reason is recorded |
| Analyzer.GenericWithoutSections | analyzer.py:98-161 | a generic role with neither a skills nor a projects section scores 100, with no reasons and empty diagnostics |
| EvaluationEngine.AtsScore | evaluation_engine.py:11-40 | the ATS score always lies in [40, 100] |
| EvaluationEngine.Filled | evaluation_engine.py:24 | a section is present with a non-empty body; a missing section counts as empty |
| EvaluationEngine.SkillsOverlong | evaluation_engine.py:20 | the skills body, or "" when there is none, is longer than 900 characters |
| EvaluationEngine.FewNumbers | evaluation_engine.py:32-33 | the section values joined with spaces hold fewer than 10 digits |
| EvaluationEngine.AtsPerfect | evaluation_engine.py:17-40 | the ATS score is 100 exactly when none of the five penalties applies |
| EvaluationEngine.AtsFloor | evaluation_engine.py:17-40 | the ATS score is 40 exactly when all five penalties apply |
| EvaluationEngine.DigitsOfJoin | evaluation_engine.py:32 | the digit count of the space-joined section values is the sum of their digit counts |
| EvaluationEngine.AtsOfEmptyResume | evaluation_engine.py:17-40 | the sections of an empty resume score 55 |
| EvaluationEngine.RoleReadiness | evaluation_engine.py:47-66 | readiness always lies in [30, 95] |
| EvaluationEngine.ReadinessMonotone | evaluation_engine.py:55-66 | readiness never rises with more missing or weak items and never falls with more strengths or a higher base |
| EvaluationEngine.ReadinessUnclamped | evaluation_engine.py:55-66 | readiness is `base - 10 * missing - 4 * weak + min(2 * strengths, 8)` when that lies strictly between 30 and 95; it is 95 exactly when that value is at least 95, and 30 exactly when it is at most 30 |
| EvaluationEngine.CountIn | evaluation_engine.py:86-92 | a count of occurring items never exceeds the number of items |
| EvaluationEngine.CountInBounds | evaluation_engine.py:86-92 | the count equals the number of items exactly when all occur, and is 0 exactly when none does |
| EvaluationEngine.CountInExtend | evaluation_engine.py:86-92 | more text never lowers the count |
| EvaluationEngine.Affinity | evaluation_engine.py:84-94 | the affinity of a profile: 3 per must-have and 2 per strong signal that occurs literally in the text |
| EvaluationEngine.AffinityExtend | evaluation_engine.py:83-94 | affinity never falls with more text and is at most 3 per must-have plus 2 per strong signal |
| EvaluationEngine.ProfileAffinity | evaluation_engine.py:84-93 | the two inner loops compute the affinity: 3 per literally occurring must-have, 2 per occurring strong signal |
| EvaluationEngine.ScoreRoles | evaluation_engine.py:83-94 | with distinct role keys, the outer loop builds the role-score map in registry order |
| EvaluationEngine.RoleScoresAt | evaluation_engine.py:83-94 | each role is paired with its own affinity at its registry position |
| EvaluationEngine.RoleScores | evaluation_engine.py:83-94 | the role-score pairs in registry order, each role with its affinity |
| EvaluationEngine.Insert | evaluation_engine.py:97-101 | inserting a pair before the first pair that does not score higher; one element longer |
| EvaluationEngine.SortDesc | evaluation_engine.py:97-101 | the stable descending sort of the role scores, as insertion from the back; it keeps the length |
| EvaluationEngine.SortDescPerm | evaluation_engine.py:97-101 | the sort is a permutation of the role scores |
| EvaluationEngine.SortDescSorted | evaluation_engine.py:97-101 | the sort orders by score, highest first |
| EvaluationEngine.SortDescStable | evaluation_engine.py:97-101 | the sort is stable: the pairs of any one score keep their input order |
| EvaluationEngine.SortDescKeys | evaluation_engine.py:97-101 | sorting keeps the set of keys and introduces no repeated key |
| EvaluationEngine.Ranked | evaluation_engine.py:97-101 | the sorted role scores of the registry |
| EvaluationEngine.Top | evaluation_engine.py:103 | the first min(3, n) pairs of the sorted role scores |
| EvaluationEngine.Recommended | evaluation_engine.py:80-103 | `recommend_best_roles` as a function: the keys of the top pairs for the lower-cased text |
| EvaluationEngine.RecommendedProperties | evaluation_engine.py:97-103 | the top pairs number min(3, number of roles), have distinct keys from the table and non-increasing affinities; no omitted role scores higher than a recommended one; ties keep registry order |
| EvaluationEngine.RecommendBestRoles | evaluation_engine.py:73-103 | the method returns the keys of the first three pairs of the stable sort of the lower-cased text's role scores |
| EvaluationEngine.RecommendsThree | evaluation_engine.py:97-103 | over the registry, the recommendation is always three distinct registry keys |
| EvaluationEngine.EvaluateResume | evaluation_engine.py:110-134 | the ATS score, readiness with the ATS score (not the role score) as base, the recommendation and the target role passed through, with their ranges |
| ImprovementEngine.Known | improvement_engine.py:134-145 | every name kept is a key of the library |
| ImprovementEngine.KnownSelects | improvement_engine.py:134-145 | the known names are exactly the input names that have a library entry, in input order |
| ImprovementEngine.SuggestIsKnown | improvement_engine.py:133-152 | one loop yields one suggestion per known name, in order, with the label plus the name as issue and the entry's fields copied |
| ImprovementEngine.ImprovementsMissingFirst | improvement_engine.py:133-141 | the output length is the number of known missing plus known weak names, and the output starts with the missing group, labelled "Missing or unclear: " and filled from the library verbatim |
| ImprovementEngine.ImprovementsWeakAfter | improvement_engine.py:144-152 | after the missing group comes the weak group, in input order, labelled "Weakly represented: " and filled from the library verbatim |
| ImprovementEngine.ImprovementsBounded | improvement_engine.py:133-152 | at most one suggestion per listed name; empty diagnostics give no suggestions; names without a library entry give none |
| ImprovementEngine.KnownNone | improvement_engine.py:134-145 | no name is kept when the library knows none of them |
| ImprovementEngine.SuggestionFor | improvement_engine.py:136-141 | a suggestion whose issue is the label plus the name, with the section, what to add and the example wording copied from the template |
| ImprovementEngine.Suggest | improvement_engine.py:133-141 | the suggestions one loop appends: one per name with a library entry, in input order |
| ImprovementEngine.ImprovementsWith | improvement_engine.py:130-152 | the missing group followed by the weak group, for a given library |
| ImprovementEngine.Improvements | improvement_engine.py:121-154 | `generate_improvements` as a function of the diagnostics alone, over the template library |
| ImprovementEngine.AppendSuggestions | improvement_engine.py:133-141 | one loop appends to its accumulator the suggestions for the known names, in order |
| ImprovementEngine.CollectSuggestions | improvement_engine.py:130-152 | the two loops in sequence compute `Improvements(diagnostics)` |
| ImprovementEngine.GenerateImprovements | improvement_engine.py:121-154 | the result is `Improvements(diagnostics)`, which does not depend on the target role |
| ImprovementEngine.LibraryKeys | improvement_engine.py:11-114 | the library's keys are the eleven competencies written in it; "deployment" has no entry |
| Text.Lower | analyzer.py:22 | lower-casing keeps the length and maps each character by the ASCII rule |
| Text.Contains | analyzer.py:35 | Python's `sub in s` on strings: `sub` occurs at some position of `s` |
| Text.Strip | analyzer.py:29 | the stripped line is a slice of the line with no whitespace at either end, and everything outside the slice is whitespace |
| Text.StripEmpty | analyzer.py:29-31 | a line strips to nothing exactly when it is all whitespace |
| Text.WordCount | analyzer.py:151 | `len(s.split())`: the number of maximal runs of non-whitespace characters |
| Text.DigitCount | evaluation_engine.py:32 | the number of ASCII digits in a text, at most its length |
| Text.Join | evaluation_engine.py:32 | `sep.join(parts)`: the parts with the separator between neighbours |
| Text.SplitLines | analyzer.py:26 | `re.split` at newlines: at least one piece, none containing a newline |
| Text.SplitLinesJoin | analyzer.py:26 | splitting on newlines and joining with newlines gives back the text |
| OrderedDict.SetGet | analyzer.py:37 | after assigning a key, that key maps to the new value and every other key is unaffected |
| OrderedDict.SetKeys | analyzer.py:37 | assignment keeps the key order and appends a new key at the end |
| OrderedDict.Set | analyzer.py:37-42 | `d[k] = v` (also evaluation_engine.py:94): the pair is stored, and the dictionary grows by one entry exactly when the key is new |
| OrderedDict.Get | analyzer.py:147 | `d.get(k)` (also evaluation_engine.py:20-36): a value is found exactly when the key is present |
| OrderedDict.GetOr | analyzer.py:147 | `d.get(k, default)` (also evaluation_engine.py:20-36): the stored value when the key is present, the default otherwise |
| OrderedDict.Values | evaluation_engine.py:32 | `d.values()`: one value per entry, in insertion order |
| OrderedDict.HasKey | analyzer.py:151 | `k in d`: some stored pair has that key |
| Text.IsSpace | analyzer.py:29 | the whitespace of `strip()` and `split()` (also line 151): exactly the ten ASCII characters Python's `isspace` accepts |
| Text.IsDigit | evaluation_engine.py:32 | `isdigit` on ASCII: exactly the ten decimal digits |

## Left out

- **LLM engines.** The LLM engines (`llm_engine.py`, `rewrite_engine.py`) are not modelled. They are network clients around an opaque model.
- **PDF parser.** The PDF parser (`resume_parser.py`) is not modelled. It is a foreign-library call. The splitter is modelled on arbitrary text, not only on the single line the parser produces.
- **UI and report glue.** The Streamlit UI (`app.py`) and the report glue (`report_generator.py`) are not modelled. They are I/O and orchestration.
- **Unicode.** Python's Unicode behaviour of `lower`, `strip`, `split` and `isdigit` is reduced to ASCII:
  - lower-casing maps A-Z only;
  - whitespace is space, characters 9 to 13 and characters 28 to 31;
  - digits are 0-9.
- **Red flags.** The `red_flags` lists are carried as inert data. No rule reads them.
- **Reason texts.** The reason texts of `score_resume` are the values of the `Reason` datatype. `Analyzer.Message` gives the source's wording for each.
- **Dictionary defaults.** `diagnostics.get(..., [])` defaults are not modelled. The `Diagnostics` record always holds all three lists, so a missing key is the empty list.
- **Suggestion records.** A suggestion is a record. The source builds a dictionary with the same four fields.
- **Resolver default.** `ResolveRoleProfile`'s lookup default is never reached, because every resolved key is registered (`RoleProfiles.ResolveTotal`).
- **Unused profile.** The profile that `generate_improvements` resolves is computed and then unused, as in the source.
