/**
  The role profile registry: a constant table from role keys to the
  competencies a resume for that role is expected to show, and the resolver
  that maps a free-text job title to one of its profiles.
 */
module RoleProfiles {
  import opened Seqs
  import opened Text
  import opened OrderedDict

  /** What a role expects. `redFlags` is descriptive data that no scoring rule reads. */
  datatype RoleProfile = RoleProfile(mustHave: seq<string>, strongSignals: seq<string>, redFlags: seq<string>)

  /** The registry, in the order its entries are written (the order ranking ties fall back on). */
  const Registry: Dict<RoleProfile> := [
    ("software_engineer", RoleProfile(
      ["data structures", "algorithms", "problem solving", "programming"],
      ["system design", "scalability", "performance optimization", "testing"],
      ["only coursework projects", "no production or applied work", "tool listing without usage"])),
    ("machine_learning_engineer", RoleProfile(
      ["model training", "evaluation metrics", "data preprocessing"],
      ["deployment", "error analysis", "baseline comparison", "monitoring"],
      ["accuracy without context", "no dataset description", "no evaluation methodology"])),
    ("data_scientist", RoleProfile(
      ["data analysis", "statistics", "visualization"],
      ["business insights", "hypothesis testing", "experimentation"],
      ["models without interpretation", "no impact metrics"])),
    ("backend_engineer", RoleProfile(
      ["api development", "databases", "backend frameworks"],
      ["scalability", "security", "distributed systems"],
      ["crud-only work", "no performance considerations"])),
    ("frontend_engineer", RoleProfile(
      ["ui development", "javascript", "frontend frameworks"],
      ["performance optimization", "accessibility", "state management"],
      ["design-only focus", "no interaction logic"])),
    ("product_manager", RoleProfile(
      ["requirements gathering", "stakeholder communication", "roadmapping"],
      ["user research", "metrics", "prioritization frameworks"],
      ["only coordination", "no ownership evidence"])),
    ("business_analyst", RoleProfile(
      ["data interpretation", "requirements analysis", "reporting"],
      ["process optimization", "decision support"],
      ["tool usage without insights"])),
    ("cybersecurity_engineer", RoleProfile(
      ["security principles", "risk assessment", "network fundamentals"],
      ["incident response", "threat modeling", "compliance"],
      ["certs without practice", "theory-only exposure"])),
    ("mechanical_engineer", RoleProfile(
      ["design principles", "manufacturing processes"],
      ["cad tools", "simulation", "optimization"],
      ["no applied projects"])),
    ("electrical_engineer", RoleProfile(
      ["circuit analysis", "signal fundamentals"],
      ["embedded systems", "hardware testing"],
      ["theory without implementation"])),
    ("generic", RoleProfile([], [], []))
  ]

  /** The registry key `resolve_role_profile` picks for a title. */
  function ResolveRoleKey(targetRole: string): string {
    KeyForTitle(Lower(targetRole))
  }

  /** The ordered substring tests on the lower-cased title; the first match wins. */
  function KeyForTitle(role: string): string {
    if Contains(role, "machine learning") || Contains(role, "ml") then "machine_learning_engineer"
    else if Contains(role, "data scientist") then "data_scientist"
    else if Contains(role, "backend") then "backend_engineer"
    else if Contains(role, "frontend") then "frontend_engineer"
    else if Contains(role, "product") then "product_manager"
    else if Contains(role, "business analyst") then "business_analyst"
    else if Contains(role, "security") then "cybersecurity_engineer"
    else if Contains(role, "software") || Contains(role, "developer") then "software_engineer"
    else "generic"
  }

  /** `resolve_role_profile`: the registry entry under the chosen key. The default is never
      used, because every key the resolver picks is registered (`ResolveTotal`). */
  function ResolveRoleProfile(targetRole: string): RoleProfile {
    GetOr(Registry, ResolveRoleKey(targetRole), RoleProfile([], [], []))
  }

  /** Every key the resolver picks is a registry key. */
  lemma ResolveKeyRegistered(targetRole: string)
    ensures HasKey(Registry, ResolveRoleKey(targetRole))
  {
    RegistryKeyList();
  }

  /** Resolution is total and always yields the registry's profile stored under the key it
      picked. */
  lemma ResolveTotal(targetRole: string)
    ensures (ResolveRoleKey(targetRole), ResolveRoleProfile(targetRole)) in Registry
    ensures exists i :: 0 <= i < |Registry| && Registry[i].1 == ResolveRoleProfile(targetRole)
  {
    var key := ResolveRoleKey(targetRole);
    ResolveKeyRegistered(targetRole);
    RegistryUnique();
    var i :| 0 <= i < |Registry| && Registry[i].0 == key;
    GetAt(Registry, i);
  }

  // ----- An independent statement of the resolution order -----

  /** The resolution rules as data: (tokens, key), tried in order. */
  const ResolutionRules: seq<(seq<string>, string)> := [
    (["machine learning", "ml"], "machine_learning_engineer"),
    (["data scientist"], "data_scientist"),
    (["backend"], "backend_engineer"),
    (["frontend"], "frontend_engineer"),
    (["product"], "product_manager"),
    (["business analyst"], "business_analyst"),
    (["security"], "cybersecurity_engineer"),
    (["software", "developer"], "software_engineer")
  ]

  /** Some token of the rule occurs in the role text. */
  predicate RuleMatches(role: string, tokens: seq<string>) {
    exists t :: t in tokens && Contains(role, t)
  }

  /** The key of the first rule that matches, or `fallback`. */
  function FirstMatch(rules: seq<(seq<string>, string)>, role: string, fallback: string): string
    decreases |rules|
  {
    if rules == [] then fallback
    else if RuleMatches(role, rules[0].0) then rules[0].1
    else FirstMatch(rules[1..], role, fallback)
  }

  /** First match wins: rule `i` decides exactly when it matches and no earlier rule does. */
  lemma {:induction false} FirstMatchWins(rules: seq<(seq<string>, string)>, role: string, fallback: string, i: nat)
    requires i < |rules| && RuleMatches(role, rules[i].0)
    requires forall j :: 0 <= j < i ==> !RuleMatches(role, rules[j].0)
    ensures FirstMatch(rules, role, fallback) == rules[i].1
    decreases i
  {
    if i > 0 {
      FirstMatchWins(rules[1..], role, fallback, i - 1);
    }
  }

  /** When no rule matches, the fallback is chosen. */
  lemma {:induction false} FirstMatchFallback(rules: seq<(seq<string>, string)>, role: string, fallback: string)
    requires forall j :: 0 <= j < |rules| ==> !RuleMatches(role, rules[j].0)
    ensures FirstMatch(rules, role, fallback) == fallback
    decreases |rules|
  {
    if rules != [] {
      FirstMatchFallback(rules[1..], role, fallback);
    }
  }

  lemma RuleOfOne(role: string, t: string)
    ensures RuleMatches(role, [t]) <==> Contains(role, t)
  {
    assert t in [t];
  }

  lemma RuleOfTwo(role: string, t: string, u: string)
    ensures RuleMatches(role, [t, u]) <==> Contains(role, t) || Contains(role, u)
  {
    assert t in [t, u] && u in [t, u];
  }

  /** Trying a rule in front of the others. */
  lemma FirstMatchStep(rule: (seq<string>, string), rest: seq<(seq<string>, string)>, role: string, fallback: string)
    ensures FirstMatch([rule] + rest, role, fallback) ==
      if RuleMatches(role, rule.0) then rule.1 else FirstMatch(rest, role, fallback)
  {
    assert ([rule] + rest)[1..] == rest;
  }

  /** The if-chain is the rule table read in order, with `generic` as the fallback. */
  lemma ResolveIsFirstMatch(targetRole: string)
    ensures ResolveRoleKey(targetRole) == FirstMatch(ResolutionRules, Lower(targetRole), "generic")
  {
    var role := Lower(targetRole);
    var rs := ResolutionRules;
    var t7 := [rs[7]];
    var t6 := [rs[6]] + t7;
    var t5 := [rs[5]] + t6;
    var t4 := [rs[4]] + t5;
    var t3 := [rs[3]] + t4;
    var t2 := [rs[2]] + t3;
    var t1 := [rs[1]] + t2;
    var t0 := [rs[0]] + t1;
    assert rs == t0;
    FirstMatchStep(rs[7], [], role, "generic");
    FirstMatchStep(rs[6], t7, role, "generic");
    FirstMatchStep(rs[5], t6, role, "generic");
    FirstMatchStep(rs[4], t5, role, "generic");
    FirstMatchStep(rs[3], t4, role, "generic");
    FirstMatchStep(rs[2], t3, role, "generic");
    FirstMatchStep(rs[1], t2, role, "generic");
    FirstMatchStep(rs[0], t1, role, "generic");
    RuleOfTwo(role, "machine learning", "ml");
    RuleOfOne(role, "data scientist");
    RuleOfOne(role, "backend");
    RuleOfOne(role, "frontend");
    RuleOfOne(role, "product");
    RuleOfOne(role, "business analyst");
    RuleOfOne(role, "security");
    RuleOfTwo(role, "software", "developer");
  }

  // ----- Properties of the resolver -----

  /** Resolution ignores letter case. */
  lemma ResolveCaseInsensitive(targetRole: string)
    ensures ResolveRoleKey(targetRole) == ResolveRoleKey(Lower(targetRole))
    ensures ResolveRoleProfile(targetRole) == ResolveRoleProfile(Lower(targetRole))
  {
    LowerIdempotent(targetRole);
  }

  /** The machine-learning test comes first: it beats every other token in the title. */
  lemma ResolveMachineLearningFirst(targetRole: string)
    requires Contains(Lower(targetRole), "machine learning") || Contains(Lower(targetRole), "ml")
    ensures ResolveRoleKey(targetRole) == "machine_learning_engineer"
  {
  }

  /** Text matching none of the tokens falls back to `generic`, which expects nothing. */
  lemma ResolveGenericFallback(targetRole: string)
    requires forall j :: 0 <= j < |ResolutionRules| ==> !RuleMatches(Lower(targetRole), ResolutionRules[j].0)
    ensures ResolveRoleKey(targetRole) == "generic"
    ensures ResolveRoleProfile(targetRole).mustHave == [] && ResolveRoleProfile(targetRole).strongSignals == []
  {
    ResolveIsFirstMatch(targetRole);
    FirstMatchFallback(ResolutionRules, Lower(targetRole), "generic");
    RegistryUnique();
    GetAt(Registry, 10);
  }

  /** A token containing a character the text lacks cannot occur in it. */
  lemma NotContains(s: string, sub: string, k: nat)
    requires k < |sub| && sub[k] !in s
    ensures !Contains(s, sub)
  {
    if Contains(s, sub) {
      ContainsChar(s, sub, k);
    }
  }

  /** "html" contains "ml", so an HTML developer is resolved as a machine-learning engineer. */
  lemma HtmlIsMachineLearning()
    ensures ResolveRoleKey("HTML Developer") == "machine_learning_engineer"
  {
    var role := "html developer";
    assert Lower("HTML Developer") == role;
    assert role[2..4] == "ml";
    ContainsAt(role, "ml", 2);
  }

  /** "Machine Learning Product Manager" meets the machine-learning test before the product test. */
  lemma MachineLearningProductManager()
    ensures ResolveRoleKey("Machine Learning Product Manager") == "machine_learning_engineer"
  {
    var role := "machine learning product manager";
    assert Lower("Machine Learning Product Manager") == role;
    assert role[0..16] == "machine learning";
    ContainsAt(role, "machine learning", 0);
  }

  /** A title that fails the first two tests and mentions "backend" is a backend title. */
  lemma ResolvesToBackend(targetRole: string)
    requires var role := Lower(targetRole);
      !Contains(role, "machine learning") && !Contains(role, "ml") &&
      !Contains(role, "data scientist") && Contains(role, "backend")
    ensures ResolveRoleKey(targetRole) == "backend_engineer"
  {
  }

  /** Which of the first tokens occur in a title spelled without an "m" or a "t". */
  lemma TokensOfPlainTitle(role: string)
    requires 'm' !in role && 't' !in role
    ensures !Contains(role, "machine learning") && !Contains(role, "ml") && !Contains(role, "data scientist")
  {
    NotContains(role, "machine learning", 0);
    NotContains(role, "ml", 0);
    NotContains(role, "data scientist", 2);
  }

  lemma SeniorBackendTitle()
    ensures Lower("Senior Backend Engineer") == "senior backend engineer"
  {
  }

  lemma SeniorBackendTokens(a: string)
    requires a == "senior backend engineer"
    ensures !Contains(a, "machine learning") && !Contains(a, "ml") &&
      !Contains(a, "data scientist") && Contains(a, "backend")
  {
    assert a[7..14] == "backend";
    ContainsAt(a, "backend", 7);
    TokensOfPlainTitle(a);
  }

  lemma BareBackendTokens(b: string)
    requires b == "backend"
    ensures Lower(b) == b
    ensures !Contains(b, "machine learning") && !Contains(b, "ml") &&
      !Contains(b, "data scientist") && Contains(b, "backend")
  {
    ContainsAt(b, "backend", 0);
    TokensOfPlainTitle(b);
  }

  /** A decorated title and the bare token resolve to the same profile. */
  lemma SeniorBackendIsBackend()
    ensures ResolveRoleKey("Senior Backend Engineer") == ResolveRoleKey("backend") == "backend_engineer"
    ensures ResolveRoleProfile("Senior Backend Engineer") == ResolveRoleProfile("backend")
  {
    SeniorBackendTitle();
    SeniorBackendTokens(Lower("Senior Backend Engineer"));
    BareBackendTokens("backend");
    ResolvesToBackend("Senior Backend Engineer");
    ResolvesToBackend("backend");
  }

  // ----- Properties of the constant table -----

  /** The registry's keys, in order. */
  lemma RegistryKeyList()
    ensures Keys(Registry) == ["software_engineer", "machine_learning_engineer", "data_scientist", "backend_engineer",
                               "frontend_engineer", "product_manager", "business_analyst", "cybersecurity_engineer",
                               "mechanical_engineer", "electrical_engineer", "generic"]
  {
  }

  /** The registry keys are distinct. */
  lemma RegistryUnique()
    ensures UniqueKeys(Registry)
  {
    RegistryKeyList();
  }

  /** Each profile lists its must-haves without repetition. */
  lemma RegistryMustHavesDistinct()
    ensures forall i :: 0 <= i < |Registry| ==> NoDuplicates(Registry[i].1.mustHave)
  {
  }

  /** Each profile lists its strong signals without repetition. */
  lemma RegistrySignalsDistinct()
    ensures forall i :: 0 <= i < |Registry| ==> NoDuplicates(Registry[i].1.strongSignals)
  {
  }

  /** No competency is both a must-have and a strong signal of the same role. */
  lemma RegistryListsDisjoint()
    ensures forall i, x :: 0 <= i < |Registry| && x in Registry[i].1.mustHave ==> x !in Registry[i].1.strongSignals
  {
  }
}
