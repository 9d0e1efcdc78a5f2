/** The role policy table `ROLE_FILTERS` of resume_docs/role_config.py, as constant data. */
module RoleConfig {
  import opened Results

  /** The single test a rule applies; the sum type makes "exactly one of
      pattern, value, contains or exact" hold by construction. */
  datatype RuleTest =
    | MatchesPattern(regex: string)       // "pattern"
    | EqualsFlag(flag: bool)              // "value"
    | ContainsAny(candidates: seq<string>) // "contains"
    | EqualsText(text: string)            // "exact"

  datatype Rule = Rule(field: string, test: RuleTest)

  /** One entry of the table. `fieldVisibility` is None when the entry has no
      "field_visibility" key. */
  datatype RolePolicy = RolePolicy(
    name: string,
    includeProjects: seq<Rule>,
    excludeProjects: seq<Rule>,
    sortBy: string,
    fieldVisibility: Option<map<string, bool>>)

  /** `ROLE_FILTERS`, in its key order. */
  const RoleFilters: seq<(string, RolePolicy)> := [
    ("data_development", RolePolicy(
      "数据开发",
      [Rule("data_domain", MatchesPattern(".*数据.*|.*BI.*")),
       Rule("ai_component_flag", EqualsFlag(true))],
      [Rule("project_name", EqualsText("Move To HP Cloud")),
       Rule("data_domain", MatchesPattern(".*基础设施.*"))],
      "relevance_then_time",
      None)),
    ("full_stack", RolePolicy(
      "全栈开发",
      [Rule("responsibility_focus", ContainsAny(["implementation", "architecture"]))],
      [Rule("data_domain", MatchesPattern(".*爬虫.*"))],
      "relevance_then_time",
      None)),
    ("ai_development", RolePolicy(
      "AI应用开发",
      [Rule("ai_component_flag", EqualsFlag(true))],
      [],
      "relevance_then_time",
      None)),
    ("product_manager", RolePolicy(
      "Generative AI 产品经理",
      [Rule("responsibility_focus", ContainsAny(["commercialization", "stakeholder_management"])),
       Rule("decision_accountability", ContainsAny(["commercial_strategy", "risk_governance"])),
       Rule("role_title", MatchesPattern(".*产品.*|.*Product.*"))],
      [Rule("role_title", MatchesPattern(".*(测试|运维).*"))],
      "relevance_then_time",
      None))
  ]

  /** `ROLE_FILTERS.keys()`, in order. */
  function RoleKeys(): (keys: seq<string>)
    ensures |keys| == |RoleFilters|
    ensures forall i | 0 <= i < |keys| :: keys[i] == RoleFilters[i].0
  {
    seq(|RoleFilters|, i requires 0 <= i < |RoleFilters| => RoleFilters[i].0)
  }

  function LookupIn(table: seq<(string, RolePolicy)>, role: string): (r: Option<RolePolicy>)
    ensures r.Some? <==> exists i | 0 <= i < |table| :: table[i].0 == role
    ensures r.Some? ==> exists i | 0 <= i < |table| :: table[i] == (role, r.value)
    decreases |table|
  {
    if |table| == 0 then None
    else if table[0].0 == role then Some(table[0].1)
    else
      var r := LookupIn(table[1..], role);
      assert forall j | 1 <= j < |table| :: table[1..][j - 1] == table[j];
      r
  }

  /** `ROLE_FILTERS.get(role)` */
  function Lookup(role: string): (r: Option<RolePolicy>)
    ensures r.Some? <==> role in RoleKeys()
    ensures r.Some? ==> exists i | 0 <= i < |RoleFilters| :: RoleFilters[i] == (role, r.value)
  {
    LookupIn(RoleFilters, role)
  }

  /** The role keys are exactly these four, in this order. */
  lemma RoleKeysAreTheFourRoles()
    ensures RoleKeys() == ["data_development", "full_stack", "ai_development", "product_manager"]
  {
  }

  /** No role entry defines "field_visibility". */
  lemma NoRoleDefinesFieldVisibility(role: string)
    ensures Lookup(role).Some? ==> Lookup(role).value.fieldVisibility.None?
  {
  }

  /** Every role sorts by "relevance_then_time". */
  lemma EveryRoleSortsByRelevanceThenTime(role: string)
    ensures Lookup(role).Some? ==> Lookup(role).value.sortBy == "relevance_then_time"
  {
  }

  /** ai_development has no exclusion rules. */
  lemma AiDevelopmentExcludesNothing()
    ensures Lookup("ai_development").Some?
    ensures Lookup("ai_development").value.excludeProjects == []
  {
    assert RoleFilters[2].0 == "ai_development";
  }
}
