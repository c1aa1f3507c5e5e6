/**
  The improvement mapper: suggestions drawn from a constant library of
  templates, one for each missing or weak competency the library knows.
 */
module ImprovementEngine {
  import opened Seqs
  import opened RoleProfiles
  import opened Analyzer

  /** A library entry: where to add the competency, what to add, and example wording. */
  datatype Template = Template(section: string, whatToAdd: string, howToWord: seq<string>)

  /** One suggestion of `generate_improvements`. */
  datatype Suggestion = Suggestion(issue: string, sectionToUpdate: string, whatToAdd: string, exampleWording: seq<string>)

  /** `IMPROVEMENT_LIBRARY`: one template per competency. */
  const Library: map<string, Template> := map[
    "model training" := ModelTrainingEntry,
    "evaluation metrics" := EvaluationMetricsEntry,
    "data preprocessing" := DataPreprocessingEntry,
    "error analysis" := ErrorAnalysisEntry,
    "baseline comparison" := BaselineComparisonEntry,
    "monitoring" := MonitoringEntry,
    "system design" := SystemDesignEntry,
    "scalability" := ScalabilityEntry,
    "testing" := TestingEntry,
    "metrics" := MetricsEntry,
    "stakeholder communication" := StakeholderCommunicationEntry
  ]

  const ModelTrainingEntry := Template("Projects / Experience",
    "Explicitly describe how the model was trained.",
    ["Trained a [model type] using [dataset description], optimizing for [objective].",
     "Implemented training pipelines with appropriate loss functions and optimization strategies."])
  const EvaluationMetricsEntry := Template("Projects",
    "Clarify how model performance was evaluated.",
    ["Evaluated model performance using metrics such as accuracy, precision, recall, and F1-score.",
     "Measured performance on a held-out validation set to assess generalization."])
  const DataPreprocessingEntry := Template("Projects / Experience",
    "Describe data cleaning and feature preparation steps.",
    ["Preprocessed raw data by handling missing values, normalization, and feature extraction.",
     "Applied domain-specific preprocessing techniques to improve model input quality."])
  const ErrorAnalysisEntry := Template("Projects",
    "Mention analysis of failure cases or errors.",
    ["Performed error analysis to identify common misclassification patterns.",
     "Reviewed failure cases to guide model refinement."])
  const BaselineComparisonEntry := Template("Projects",
    "Compare model results against a baseline.",
    ["Compared model performance against baseline approaches to validate improvements.",
     "Benchmarked results against simpler models to justify architectural choices."])
  const MonitoringEntry := Template("Experience",
    "Explain how models or systems were monitored post-deployment.",
    ["Implemented logging and monitoring to track system performance over time.",
     "Monitored key metrics to ensure system reliability and performance stability."])
  const SystemDesignEntry := Template("Experience / Projects",
    "Show architectural decision-making.",
    ["Designed modular system architecture to support scalability and maintainability.",
     "Defined service boundaries and data flow for backend systems."])
  const ScalabilityEntry := Template("Experience",
    "Explain how systems handled growth or load.",
    ["Optimized system components to handle increased load efficiently.",
     "Improved system scalability through caching, async processing, or load balancing."])
  const TestingEntry := Template("Experience",
    "Demonstrate validation and quality assurance.",
    ["Implemented unit and integration tests to ensure system reliability.",
     "Used automated testing to catch regressions during development."])
  const MetricsEntry := Template("Experience",
    "Tie work to measurable outcomes.",
    ["Defined and tracked key metrics to evaluate feature success.",
     "Used data-driven insights to inform decision-making."])
  const StakeholderCommunicationEntry := Template("Experience",
    "Show cross-functional collaboration.",
    ["Collaborated with cross-functional stakeholders to gather requirements.",
     "Communicated project progress and trade-offs to non-technical teams."])

  const MissingLabel := "Missing or unclear: "
  const WeakLabel := "Weakly represented: "

  /** The suggestion for a named competency: the label and the name as the issue, the rest
      copied from the template. */
  function SuggestionFor(tag: string, name: string, entry: Template): Suggestion {
    Suggestion(tag + name, entry.section, entry.whatToAdd, entry.howToWord)
  }

  /** The suggestions one loop of `generate_improvements` appends for `names`. */
  function Suggest(lib: map<string, Template>, names: seq<string>, tag: string): seq<Suggestion>
    decreases |names|
  {
    if names == [] then []
    else
      var last := names[|names| - 1];
      Suggest(lib, names[..|names| - 1], tag) + (if last in lib then [SuggestionFor(tag, last, lib[last])] else [])
  }

  /** The names the library has an entry for, in their order. */
  function Known(lib: map<string, Template>, names: seq<string>): (ks: seq<string>)
    ensures forall k :: k in ks ==> k in lib
    decreases |names|
  {
    if names == [] then []
    else
      var last := names[|names| - 1];
      Known(lib, names[..|names| - 1]) + (if last in lib then [last] else [])
  }

  /** The suggestions for the diagnostics from a library: the missing group, then the weak
      group. */
  function ImprovementsWith(lib: map<string, Template>, d: Diagnostics): seq<Suggestion> {
    Suggest(lib, d.missingMustHave, MissingLabel) + Suggest(lib, d.weakSignals, WeakLabel)
  }

  /** `generate_improvements` as a function. */
  function Improvements(d: Diagnostics): seq<Suggestion> {
    ImprovementsWith(Library, d)
  }

  /** The known names are those of the input the library knows, in input order. */
  lemma {:induction false} KnownSelects(lib: map<string, Template>, names: seq<string>)
    ensures forall x :: x in Known(lib, names) <==> x in names && x in lib
    ensures IsSubsequence(Known(lib, names), names)
    decreases |names|
  {
    if names == [] {
      SubsequenceEmpty(names);
    } else {
      var init := names[..|names| - 1];
      var last := names[|names| - 1];
      KnownSelects(lib, init);
      assert names == init + [last];
      SubsequenceSnoc(Known(lib, init), init, last);
      if last in lib {
        assert Known(lib, names) == Known(lib, init) + [last];
      } else {
        assert Known(lib, names) == Known(lib, init);
      }
    }
  }

  /** Suggestion `i` is the template suggestion for known name `i`: one suggestion per known
      name, in order, with the tag and the library's fields. */
  lemma {:induction false} SuggestIsKnown(lib: map<string, Template>, names: seq<string>, tag: string)
    ensures |Suggest(lib, names, tag)| == |Known(lib, names)|
    ensures forall i :: 0 <= i < |Known(lib, names)| ==>
      var n := Known(lib, names)[i];
      Suggest(lib, names, tag)[i] == SuggestionFor(tag, n, lib[n])
    decreases |names|
  {
    if names != [] {
      SuggestIsKnown(lib, names[..|names| - 1], tag);
    }
  }

  /** The output starts with the missing group: one suggestion per known missing name, in
      input order, labelled "Missing or unclear: " and filled from the library verbatim. */
  lemma ImprovementsMissingFirst(lib: map<string, Template>, d: Diagnostics)
    ensures var r := ImprovementsWith(lib, d);
      var km, kw := Known(lib, d.missingMustHave), Known(lib, d.weakSignals);
      |r| == |km| + |kw| &&
      forall i :: 0 <= i < |km| ==> r[i] == SuggestionFor(MissingLabel, km[i], lib[km[i]])
  {
    var a, b := Suggest(lib, d.missingMustHave, MissingLabel), Suggest(lib, d.weakSignals, WeakLabel);
    SuggestIsKnown(lib, d.missingMustHave, MissingLabel);
    SuggestIsKnown(lib, d.weakSignals, WeakLabel);
    forall i | 0 <= i < |a|
      ensures (a + b)[i] == a[i]
    {
    }
  }

  /** The weak group follows: one suggestion per known weak name, in input order, labelled
      "Weakly represented: " and filled from the library verbatim. */
  lemma ImprovementsWeakAfter(lib: map<string, Template>, d: Diagnostics)
    ensures var r := ImprovementsWith(lib, d);
      var km, kw := Known(lib, d.missingMustHave), Known(lib, d.weakSignals);
      |r| == |km| + |kw| &&
      forall i :: |km| <= i < |r| ==> r[i] == SuggestionFor(WeakLabel, kw[i - |km|], lib[kw[i - |km|]])
  {
    var a, b := Suggest(lib, d.missingMustHave, MissingLabel), Suggest(lib, d.weakSignals, WeakLabel);
    SuggestIsKnown(lib, d.missingMustHave, MissingLabel);
    SuggestIsKnown(lib, d.weakSignals, WeakLabel);
    forall i | |a| <= i < |a + b|
      ensures (a + b)[i] == b[i - |a|]
    {
    }
  }

  /** Only library names produce suggestions: at most one per listed name, none for empty
      diagnostics, none when the library knows no listed name. */
  lemma ImprovementsBounded(lib: map<string, Template>, d: Diagnostics)
    ensures |ImprovementsWith(lib, d)| <= |d.missingMustHave| + |d.weakSignals|
    ensures d.missingMustHave == [] && d.weakSignals == [] ==> ImprovementsWith(lib, d) == []
    ensures (forall x :: x in d.missingMustHave + d.weakSignals ==> x !in lib) ==> ImprovementsWith(lib, d) == []
  {
    SuggestIsKnown(lib, d.missingMustHave, MissingLabel);
    SuggestIsKnown(lib, d.weakSignals, WeakLabel);
    KnownSelects(lib, d.missingMustHave);
    KnownSelects(lib, d.weakSignals);
    SubsequenceLength(Known(lib, d.missingMustHave), d.missingMustHave);
    SubsequenceLength(Known(lib, d.weakSignals), d.weakSignals);
    if forall x :: x in d.missingMustHave + d.weakSignals ==> x !in lib {
      KnownNone(lib, d.missingMustHave);
      KnownNone(lib, d.weakSignals);
    }
  }

  /** No name is known when the library knows none of them. */
  lemma {:induction false} KnownNone(lib: map<string, Template>, names: seq<string>)
    requires forall x :: x in names ==> x !in lib
    ensures Known(lib, names) == []
    decreases |names|
  {
    if names != [] {
      KnownNone(lib, names[..|names| - 1]);
    }
  }

  /** One loop of `generate_improvements`: appends to `acc`, in the order of `names`, the
      suggestion for every name the library has an entry for. */
  method AppendSuggestions(lib: map<string, Template>, names: seq<string>, tag: string, acc: seq<Suggestion>)
    returns (r: seq<Suggestion>)
    ensures r == acc + Suggest(lib, names, tag)
  {
    r := acc;
    var i := 0;
    while i < |names|
      invariant 0 <= i <= |names|
      invariant r == acc + Suggest(lib, names[..i], tag)
    {
      assert names[..i + 1][..i] == names[..i];
      var name := names[i];
      if name in lib {
        var entry := lib[name];
        r := r + [Suggestion(tag + name, entry.section, entry.whatToAdd, entry.howToWord)];
      }
      i := i + 1;
    }
    assert names[..i] == names;
  }

  /** `generate_improvements`. The target role is resolved but the profile is never read, so
      the result depends on the diagnostics alone. */
  method GenerateImprovements(diagnostics: Diagnostics, targetRole: string) returns (suggestions: seq<Suggestion>)
    ensures suggestions == Improvements(diagnostics)
  {
    var profile := ResolveRoleProfile(targetRole);
    suggestions := CollectSuggestions(diagnostics);
  }

  /** The two loops of `generate_improvements`: the missing group, then the weak group. */
  method CollectSuggestions(diagnostics: Diagnostics) returns (suggestions: seq<Suggestion>)
    ensures suggestions == Improvements(diagnostics)
  {
    suggestions := AppendSuggestions(Library, diagnostics.missingMustHave, MissingLabel, []);
    suggestions := AppendSuggestions(Library, diagnostics.weakSignals, WeakLabel, suggestions);
  }

  /** The library's entries are competencies of the machine-learning, software and
      product profiles; the machine-learning signal "deployment" has none. */
  lemma LibraryKeys()
    ensures Library.Keys == {"model training", "evaluation metrics", "data preprocessing", "error analysis",
                             "baseline comparison", "monitoring", "system design", "scalability", "testing",
                             "metrics", "stakeholder communication"}
    ensures "deployment" !in Library
  {
  }
}
