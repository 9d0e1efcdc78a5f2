/** resume_docs/loader.py: the parsed contents of the four data files become the résumé
    records, each project checked against the allowed enum values first. Reading and
    parsing the YAML is a parameter: the model starts from the parsed values. */
module Loader {
  import F = Fields
  import opened Models
  import opened Results
  import opened Constants
  import Py

  /** The data-file suffix `load_resume_data` picks for a locale. */
  function DataSuffix(locale: string): (s: string)
    ensures s == "_en" <==> locale == "en-US"
    ensures s == "" <==> locale != "en-US"
  {
    if locale == "en-US" then "_en" else ""
  }

  /** `f"{stem}{suffix}.yaml"` */
  function DataFile(stem: string, locale: string): (r: string)
    ensures locale == "en-US" ==> r == stem + "_en.yaml"
    ensures locale != "en-US" ==> r == stem + ".yaml"
  {
    stem + DataSuffix(locale) + ".yaml"
  }

  // ---------------------------------------------------------------------------
  // _validate_project_enums

  /** A value that is one of the allowed strings. */
  predicate IsAllowed(v: Value, allowed: set<string>) {
    v.Str? && v.s in allowed
  }

  /** `raw.get('project_name')`, as the error messages quote it. */
  function ProjectNameOf(raw: Value): Value {
    if raw.Dict? then Py.Find(raw.entries, "project_name").GetOr(Null) else Null
  }

  /** What `v not in allowed` raises for a rejected value: the ValueError naming the
      field and the project, or the TypeError of hashing a list or dict. */
  function ChoiceError(field: string, v: Value, raw: Value): Error {
    if Py.Hashable(v) then InvalidChoice(field, v, ProjectNameOf(raw)) else TypeError("unhashable type")
  }

  /** `if v and v not in allowed: raise ...` */
  function CheckOptional(field: string, v: Value, allowed: set<string>, raw: Value): (r: Result<()>)
    ensures r.Ok? <==> !Py.Truthy(v) || IsAllowed(v, allowed)
    ensures r.Err? ==> r.error == ChoiceError(field, v, raw)
  {
    if !Py.Truthy(v) then Ok(())
    else
      var member :- Py.Member(v, allowed);
      if member then Ok(()) else Err(InvalidChoice(field, v, ProjectNameOf(raw)))
  }

  /** `for choice in items: if choice not in allowed: raise ...` */
  function CheckChoices(field: string, items: seq<Value>, allowed: set<string>, raw: Value): (r: Result<()>)
    ensures r.Ok? <==> forall i | 0 <= i < |items| :: IsAllowed(items[i], allowed)
    ensures r.Err? ==> exists i | 0 <= i < |items| ::
              (forall j | 0 <= j < i :: IsAllowed(items[j], allowed)) &&
              !IsAllowed(items[i], allowed) && r.error == ChoiceError(field, items[i], raw)
    decreases |items|
  {
    if |items| == 0 then Ok(())
    else
      var member :- Py.Member(items[0], allowed);
      if !member then Err(InvalidChoice(field, items[0], ProjectNameOf(raw)))
      else
        assert forall j | 1 <= j < |items| :: items[1..][j - 1] == items[j];
        CheckChoices(field, items[1..], allowed, raw)
  }

  /** The first rejected choice is the one reported. */
  lemma {:induction false} CheckChoicesFirstError(field: string, items: seq<Value>, allowed: set<string>, raw: Value, k: nat)
    requires k < |items| && !IsAllowed(items[k], allowed)
    requires forall j | 0 <= j < k :: IsAllowed(items[j], allowed)
    ensures CheckChoices(field, items, allowed, raw) == Err(ChoiceError(field, items[k], raw))
  {
    var r := CheckChoices(field, items, allowed, raw);
    var i :| 0 <= i < |items| && (forall j | 0 <= j < i :: IsAllowed(items[j], allowed)) &&
             !IsAllowed(items[i], allowed) && r.error == ChoiceError(field, items[i], raw);
    assert i == k;
  }

  /** The elements `for x in raw.get(key, []) or []` and `list(raw.get(key, []) or [])` visit. */
  function ItemsOf(raw: Value, key: string): (r: Result<seq<Value>>)
    ensures r.Ok? ==> raw.Dict?
    ensures raw.Dict? && (!Py.HasKey(raw.entries, key) || !Py.Truthy(Py.Find(raw.entries, key).value)) ==> r == Ok([])
    ensures raw.Dict? && Py.HasKey(raw.entries, key) && Py.Find(raw.entries, key).value.List? ==>
              r == Ok(Py.Find(raw.entries, key).value.items)
  {
    var v :- Py.Get(raw, key, List([]));
    Py.Iterate(Py.Or(v, List([])))
  }

  /** `raw.get("management_scope", {}) or {}` */
  function ScopeOf(raw: seq<(string, Value)>): Value {
    Py.Or(Py.Lookup(raw, "management_scope", Dict([])), Dict([]))
  }

  /** What validation demands of a raw project dict: a role perspective that is empty or
      allowed, a scope that is a mapping whose budget level is empty or allowed, and
      iterable choice lists whose every element is allowed. */
  predicate EnumsValid(raw: Value)
    requires raw.Dict?
  {
    var role := Py.Lookup(raw.entries, "role_perspective", Null);
    var scope := ScopeOf(raw.entries);
    var decisions := ItemsOf(raw, "decision_accountability");
    var focus := ItemsOf(raw, "responsibility_focus");
    (!Py.Truthy(role) || IsAllowed(role, RolePerspectiveAllowed))
    && scope.Dict?
    && (var budget := Py.Lookup(scope.entries, "budget_level", Null);
        !Py.Truthy(budget) || IsAllowed(budget, BudgetLevelAllowed))
    && decisions.Ok?
    && (forall i | 0 <= i < |decisions.value| :: IsAllowed(decisions.value[i], DecisionAccountabilityAllowed))
    && focus.Ok?
    && (forall i | 0 <= i < |focus.value| :: IsAllowed(focus.value[i], ResponsibilityFocusAllowed))
  }

  /** The checks of `_validate_project_enums`, in order; the first failure is raised. */
  function EnumCheck(raw: Value): (r: Result<()>)
    ensures r.Ok? ==> raw.Dict?
    ensures raw.Dict? ==> (r.Ok? <==> EnumsValid(raw))
  {
    if !raw.Dict? then Err(Py.NoGet)
    else
    var role := Py.Lookup(raw.entries, "role_perspective", Null);
    var _ :- CheckOptional("role_perspective", role, RolePerspectiveAllowed, raw);
    var budget :- Py.Get(ScopeOf(raw.entries), "budget_level", Null);
    var _ :- CheckOptional("budget_level", budget, BudgetLevelAllowed, raw);
    var decisions :- ItemsOf(raw, "decision_accountability");
    var _ :- CheckChoices("decision_accountability", decisions, DecisionAccountabilityAllowed, raw);
    var focus :- ItemsOf(raw, "responsibility_focus");
    CheckChoices("responsibility_focus", focus, ResponsibilityFocusAllowed, raw)
  }

  /** `_validate_project_enums`: the same checks, with the two loops written out. */
  method ValidateProjectEnums(raw: Value) returns (r: Result<()>)
    ensures r == EnumCheck(raw)
  {
    if !raw.Dict? {
      return Err(Py.NoGet);
    }
    var role := Py.Lookup(raw.entries, "role_perspective", Null);
    if Py.Truthy(role) {
      var member :- Py.Member(role, RolePerspectiveAllowed);
      if !member {
        return Err(InvalidChoice("role_perspective", role, ProjectNameOf(raw)));
      }
    }
    var budget :- Py.Get(ScopeOf(raw.entries), "budget_level", Null);
    if Py.Truthy(budget) {
      var member :- Py.Member(budget, BudgetLevelAllowed);
      if !member {
        return Err(InvalidChoice("budget_level", budget, ProjectNameOf(raw)));
      }
    }
    var decisions :- ItemsOf(raw, "decision_accountability");
    var _ :- CheckEach("decision_accountability", decisions, DecisionAccountabilityAllowed, raw);
    var focus :- ItemsOf(raw, "responsibility_focus");
    r := CheckEach("responsibility_focus", focus, ResponsibilityFocusAllowed, raw);
  }

  /** One `for choice in items: if choice not in allowed: raise ...` loop. */
  method CheckEach(field: string, items: seq<Value>, allowed: set<string>, raw: Value) returns (r: Result<()>)
    ensures r == CheckChoices(field, items, allowed, raw)
  {
    var i := 0;
    while i < |items|
      invariant 0 <= i <= |items|
      invariant CheckChoices(field, items, allowed, raw) == CheckChoices(field, items[i..], allowed, raw)
    {
      var member :- Py.Member(items[i], allowed);
      if !member {
        return Err(InvalidChoice(field, items[i], ProjectNameOf(raw)));
      }
      assert items[i..][1..] == items[i + 1..];
      i := i + 1;
    }
    return Ok(());
  }

  /** A project that sets none of the checked fields passes. */
  lemma EnumCheckAcceptsEmptyProject()
    ensures EnumCheck(Dict([])) == Ok(())
  {
    assert ItemsOf(Dict([]), "decision_accountability") == Ok([]);
    assert ItemsOf(Dict([]), "responsibility_focus") == Ok([]);
  }

  /** A non-empty role perspective outside the allowed set is the first thing rejected. */
  lemma EnumCheckRejectsRolePerspective(raw: Value)
    requires raw.Dict?
    requires var role := Py.Lookup(raw.entries, "role_perspective", Null);
      Py.Truthy(role) && Py.Hashable(role) && !IsAllowed(role, RolePerspectiveAllowed)
    ensures EnumCheck(raw) == Err(InvalidChoice("role_perspective", Py.Lookup(raw.entries, "role_perspective", Null), ProjectNameOf(raw)))
  {
  }

  /** With the role perspective accepted, a non-empty budget level outside the allowed
      set is rejected. */
  lemma EnumCheckRejectsBudgetLevel(raw: Value)
    requires raw.Dict?
    requires var role := Py.Lookup(raw.entries, "role_perspective", Null);
      !Py.Truthy(role) || IsAllowed(role, RolePerspectiveAllowed)
    requires ScopeOf(raw.entries).Dict?
    requires var budget := Py.Lookup(ScopeOf(raw.entries).entries, "budget_level", Null);
      Py.Truthy(budget) && Py.Hashable(budget) && !IsAllowed(budget, BudgetLevelAllowed)
    ensures EnumCheck(raw) == Err(InvalidChoice("budget_level", Py.Lookup(ScopeOf(raw.entries).entries, "budget_level", Null), ProjectNameOf(raw)))
  {
  }

  /** With the scalar checks passed, the first decision_accountability element outside
      the allowed set is rejected. */
  lemma {:induction false} EnumCheckRejectsDecision(raw: Value, k: nat)
    requires raw.Dict?
    requires var role := Py.Lookup(raw.entries, "role_perspective", Null);
      !Py.Truthy(role) || IsAllowed(role, RolePerspectiveAllowed)
    requires ScopeOf(raw.entries).Dict?
    requires var budget := Py.Lookup(ScopeOf(raw.entries).entries, "budget_level", Null);
      !Py.Truthy(budget) || IsAllowed(budget, BudgetLevelAllowed)
    requires ItemsOf(raw, "decision_accountability").Ok?
    requires var items := ItemsOf(raw, "decision_accountability").value;
      k < |items| && !IsAllowed(items[k], DecisionAccountabilityAllowed) && Py.Hashable(items[k]) &&
      forall j | 0 <= j < k :: IsAllowed(items[j], DecisionAccountabilityAllowed)
    ensures EnumCheck(raw) ==
      Err(InvalidChoice("decision_accountability", ItemsOf(raw, "decision_accountability").value[k], ProjectNameOf(raw)))
  {
    var items := ItemsOf(raw, "decision_accountability").value;
    CheckChoicesFirstError("decision_accountability", items, DecisionAccountabilityAllowed, raw, k);
  }

  /** With every earlier check passed, the first responsibility_focus element outside the
      allowed set is rejected. */
  lemma {:induction false} EnumCheckRejectsFocus(raw: Value, k: nat)
    requires raw.Dict? && EnumsValidBeforeFocus(raw)
    requires ItemsOf(raw, "responsibility_focus").Ok?
    requires var items := ItemsOf(raw, "responsibility_focus").value;
      k < |items| && !IsAllowed(items[k], ResponsibilityFocusAllowed) && Py.Hashable(items[k]) &&
      forall j | 0 <= j < k :: IsAllowed(items[j], ResponsibilityFocusAllowed)
    ensures EnumCheck(raw) ==
      Err(InvalidChoice("responsibility_focus", ItemsOf(raw, "responsibility_focus").value[k], ProjectNameOf(raw)))
  {
    var items := ItemsOf(raw, "responsibility_focus").value;
    CheckChoicesFirstError("responsibility_focus", items, ResponsibilityFocusAllowed, raw, k);
    var decisions := ItemsOf(raw, "decision_accountability").value;
    assert CheckChoices("decision_accountability", decisions, DecisionAccountabilityAllowed, raw).Ok?;
  }

  /** The checks made before the responsibility_focus loop all pass. */
  predicate EnumsValidBeforeFocus(raw: Value)
    requires raw.Dict?
  {
    var role := Py.Lookup(raw.entries, "role_perspective", Null);
    var scope := ScopeOf(raw.entries);
    var decisions := ItemsOf(raw, "decision_accountability");
    (!Py.Truthy(role) || IsAllowed(role, RolePerspectiveAllowed))
    && scope.Dict?
    && (var budget := Py.Lookup(scope.entries, "budget_level", Null);
        !Py.Truthy(budget) || IsAllowed(budget, BudgetLevelAllowed))
    && decisions.Ok?
    && (forall i | 0 <= i < |decisions.value| :: IsAllowed(decisions.value[i], DecisionAccountabilityAllowed))
  }

  // ---------------------------------------------------------------------------
  // _parse_projects

  /** `**(raw.get(key, {}) or {})` passed to a record whose parameters are `names`:
      the value must be a mapping and each of its keys a parameter name. */
  function KeywordArgs(raw: Value, key: string, names: set<string>): (r: Result<seq<(string, Value)>>)
    ensures !raw.Dict? ==> r == Err(Py.NoGet)
    ensures raw.Dict? && (!Py.HasKey(raw.entries, key) || !Py.Truthy(Py.Find(raw.entries, key).value)) ==> r == Ok([])
    ensures raw.Dict? && Py.HasKey(raw.entries, key) && Py.Find(raw.entries, key).value.Dict? ==>
              var given := Py.Find(raw.entries, key).value.entries;
              (r.Ok? <==> forall i | 0 <= i < |given| :: given[i].0 in names) && (r.Ok? ==> r.value == given)
    ensures (raw.Dict? && Py.HasKey(raw.entries, key) && Py.Truthy(Py.Find(raw.entries, key).value) &&
             !Py.Find(raw.entries, key).value.Dict?) ==> r.Err? && r.error.TypeError?
    ensures r.Ok? ==> forall i | 0 <= i < |r.value| :: r.value[i].0 in names
  {
    var v :- Py.Get(raw, key, Dict([]));
    var d := Py.Or(v, Dict([]));
    if !d.Dict? then Err(TypeError("argument after ** must be a mapping"))
    else if exists i | 0 <= i < |d.entries| :: d.entries[i].0 !in names then
      Err(TypeError("got an unexpected keyword argument"))
    else Ok(d.entries)
  }

  /** The argument bound to parameter `name`, or its default. */
  function Param(kwargs: seq<(string, Value)>, name: string, default: Value): (r: Value)
    ensures Py.Given(kwargs, name, default, r)
  {
    Py.Find(kwargs, name).GetOr(default)
  }

  const TimeframeParams: set<string> := {"label", "start", "end"}
  const ScopeParams: set<string> := {"team_size", "budget_level", "stakeholder_tiers"}
  const MetricsParams: set<string> := {"business_metrics", "technical_metrics", "operational_metrics"}

  /** `models.Timeframe(**kwargs)`: no arguments give the default timeframe. */
  function MakeTimeframe(kwargs: seq<(string, Value)>): (t: Timeframe)
    ensures kwargs == [] ==> t == DefaultTimeframe()
    ensures Py.Given(kwargs, "label", Null, t.labelText) && Py.Given(kwargs, "start", Null, t.start)
            && Py.Given(kwargs, "end", Null, t.end)
  {
    Timeframe(Param(kwargs, "label", Null), Param(kwargs, "start", Null), Param(kwargs, "end", Null))
  }

  /** `models.ManagementScope(**kwargs)`: no arguments give the default scope. */
  function MakeManagementScope(kwargs: seq<(string, Value)>): (m: ManagementScope)
    ensures kwargs == [] ==> m == DefaultManagementScope()
    ensures Py.Given(kwargs, "team_size", Null, m.teamSize) && Py.Given(kwargs, "budget_level", Null, m.budgetLevel)
            && Py.Given(kwargs, "stakeholder_tiers", List([]), m.stakeholderTiers)
  {
    ManagementScope(Param(kwargs, "team_size", Null), Param(kwargs, "budget_level", Null),
                    Param(kwargs, "stakeholder_tiers", List([])))
  }

  /** `models.ImpactMetrics(**kwargs)`: no arguments give empty metrics. */
  function MakeImpactMetrics(kwargs: seq<(string, Value)>): (m: ImpactMetrics)
    ensures kwargs == [] ==> m == DefaultImpactMetrics()
    ensures Py.Given(kwargs, "business_metrics", List([]), m.businessMetrics)
            && Py.Given(kwargs, "technical_metrics", List([]), m.technicalMetrics)
            && Py.Given(kwargs, "operational_metrics", List([]), m.operationalMetrics)
  {
    ImpactMetrics(Param(kwargs, "business_metrics", List([])), Param(kwargs, "technical_metrics", List([])),
                  Param(kwargs, "operational_metrics", List([])))
  }

  /** `list(raw.get(key, []) or [])`: a missing or empty value gives `[]`, a list is kept. */
  function ListArg(raw: Value, key: string): (r: Result<Value>)
    ensures r.Ok? ==> r.value.List?
    ensures raw.Dict? && (!Py.HasKey(raw.entries, key) || !Py.Truthy(Py.Find(raw.entries, key).value)) ==>
              r == Ok(List([]))
    ensures raw.Dict? && Py.HasKey(raw.entries, key) && Py.Find(raw.entries, key).value.List? ==>
              r == Ok(Py.Find(raw.entries, key).value)
  {
    var items :- ItemsOf(raw, key);
    Ok(List(items))
  }

  /** `dict(raw.get(key, {}) or {})`, for a mapping; any other truthy value raises. */
  function MappingArg(raw: Value, key: string): (r: Result<Value>)
    ensures r.Ok? ==> r.value.Dict?
    ensures !raw.Dict? ==> r == Err(Py.NoGet)
    ensures raw.Dict? && (!Py.HasKey(raw.entries, key) || !Py.Truthy(Py.Find(raw.entries, key).value)) ==>
              r == Ok(Dict([]))
    ensures raw.Dict? && Py.HasKey(raw.entries, key) && Py.Find(raw.entries, key).value.Dict? ==>
              r == Ok(Py.Find(raw.entries, key).value)
    ensures (raw.Dict? && Py.HasKey(raw.entries, key) && Py.Truthy(Py.Find(raw.entries, key).value) &&
             !Py.Find(raw.entries, key).value.Dict?) ==> r.Err? && r.error.TypeError?
  {
    var v :- Py.Get(raw, key, Dict([]));
    var d := Py.Or(v, Dict([]));
    if d.Dict? then Ok(d) else Err(TypeError("cannot convert to dict"))
  }

  /** How the `models.Project(...)` call of `_parse_projects` obtains a field's argument. */
  datatype ArgForm =
    | NameForm        // raw.get("project_name", "")
    | OmittedForm     // not passed: llm_primary_role, llm_secondary_roles
    | TimeframeForm   // Timeframe(**(raw.get(...) or {}))
    | ScopeForm       // ManagementScope(**(raw.get(...) or {}))
    | MetricsForm     // ImpactMetrics(**(raw.get(...) or {}))
    | MappingForm     // dict(raw.get(..., {}) or {})
    | ListForm        // list(raw.get(..., []) or [])
    | OptionalForm    // raw.get(...)

  function FormOf(f: F.Field): ArgForm {
    match f
    case ProjectName => NameForm
    case LlmPrimaryRole | LlmSecondaryRoles => OmittedForm
    case Timeframe => TimeframeForm
    case ManagementScope => ScopeForm
    case ImpactMetrics => MetricsForm
    case TeamInfo => MappingForm
    case _ => if F.KindOf(f) == F.SequenceKind then ListForm else OptionalForm
  }

  /** The argument the call passes for a field (an omitted field's default for the two
      fields it does not pass). */
  function FieldArg(raw: Value, f: F.Field): (r: Result<Value>)
    ensures FormOf(f) == OmittedForm ==> r == Ok(DefaultValue(f))
    ensures FormOf(f) != OmittedForm && !raw.Dict? ==> r == Err(Py.NoGet)
  {
    var key := F.Key(f);
    match FormOf(f)
    case NameForm => Py.Get(raw, key, Str(""))
    case OmittedForm => Ok(DefaultValue(f))
    case TimeframeForm => var kw :- KeywordArgs(raw, key, TimeframeParams); Ok(Time(MakeTimeframe(kw)))
    case ScopeForm => var kw :- KeywordArgs(raw, key, ScopeParams); Ok(Scope(MakeManagementScope(kw)))
    case MetricsForm => var kw :- KeywordArgs(raw, key, MetricsParams); Ok(Metrics(MakeImpactMetrics(kw)))
    case MappingForm => MappingArg(raw, key)
    case ListForm => ListArg(raw, key)
    case OptionalForm => Py.Get(raw, key, Null)
  }

  /** The order in which `_parse_projects` evaluates the arguments: the three nested records
      first, then the keyword arguments of the call. The two llm_* fields, which the call
      does not pass and whose "argument" is their default, close the list; they cannot fail. */
  const ArgOrder: seq<F.Field> := [
    F.Timeframe, F.ManagementScope, F.ImpactMetrics,
    F.ProjectName, F.CompanyOrContext, F.RoleTitle, F.RolePerspective,
    F.DecisionAccountability, F.ResponsibilityFocus, F.GovernanceArtifacts,
    F.ProjectOverview, F.DataDomain, F.AiComponentFlag, F.ChallengesOrObjectives,
    F.Responsibilities, F.ArchitectureOrSolution, F.ProcessOrMethodology,
    F.DeliverablesOrFeatures, F.MetricsOrImpact, F.TechStack, F.ToolsPlatforms,
    F.TeamInfo, F.Notes, F.LlmPrimaryRole, F.LlmSecondaryRoles]

  lemma ArgOrderHas(f: F.Field)
    ensures f in ArgOrder
  {
  }

  lemma ArgOrderListsEveryField()
    ensures forall f :: f in ArgOrder
  {
    forall f: F.Field ensures f in ArgOrder {
      ArgOrderHas(f);
    }
  }

  /** A project whose fields' arguments are evaluated in `order`, the first exception
      raised; otherwise every field holds its argument. */
  function BuildFrom(raw: Value, order: seq<F.Field>): (r: Result<Project>)
    requires forall f :: f in order
    ensures r.Ok? <==> forall i | 0 <= i < |order| :: FieldArg(raw, order[i]).Ok?
    ensures r.Ok? ==> forall f :: FieldArg(raw, f) == Ok(r.value[f])
    ensures r.Err? ==> exists i | 0 <= i < |order| ::
              (forall j | 0 <= j < i :: FieldArg(raw, order[j]).Ok?) && FieldArg(raw, order[i]) == Err(r.error)
  {
    var args := MapResult(order, f => FieldArg(raw, f));
    if args.Err? then Err(args.error)
    else
      assert forall f :: FieldArg(raw, f).Ok? by {
        forall f ensures FieldArg(raw, f).Ok? {
          assert f in order;
          var i :| 0 <= i < |order| && order[i] == f;
        }
      }
      Ok(F.Build(f => FieldArg(raw, f).ValueOr(Null)))
  }

  /** The construction half of one iteration of `_parse_projects`, with the arguments
      evaluated in the call's order. */
  function BuildProject(raw: Value): (r: Result<Project>)
    ensures r.Ok? <==> forall i | 0 <= i < |ArgOrder| :: FieldArg(raw, ArgOrder[i]).Ok?
    ensures r.Ok? ==> forall f :: FieldArg(raw, f) == Ok(r.value[f])
    ensures r.Err? ==> exists i | 0 <= i < |ArgOrder| ::
              (forall j | 0 <= j < i :: FieldArg(raw, ArgOrder[j]).Ok?) && FieldArg(raw, ArgOrder[i]) == Err(r.error)
  {
    ArgOrderListsEveryField();
    BuildFrom(raw, ArgOrder)
  }

  /** The omitted llm_* fields get None and `[]`. */
  lemma FieldArgOmitted(raw: Value)
    ensures FieldArg(raw, F.LlmPrimaryRole) == Ok(Null)
    ensures FieldArg(raw, F.LlmSecondaryRoles) == Ok(List([]))
  {
  }

  /** One iteration of `_parse_projects`: validate, then construct. */
  function ParseProject(raw: Value): (r: Result<Project>)
    ensures EnumCheck(raw).Err? ==> r == Err(EnumCheck(raw).error)
    ensures EnumCheck(raw).Ok? ==> r == BuildProject(raw)
    ensures r.Ok? ==> raw.Dict? && EnumsValid(raw)
    ensures r.Ok? ==> r.value[F.LlmPrimaryRole] == Null && r.value[F.LlmSecondaryRoles] == List([])
  {
    var _ :- EnumCheck(raw);
    FieldArgOmitted(raw);
    BuildProject(raw)
  }

  /** The default of a field, by the way its argument is formed. */
  lemma DefaultByForm(f: F.Field)
    ensures FormOf(f) == TimeframeForm ==> DefaultValue(f) == Time(DefaultTimeframe())
    ensures FormOf(f) == ScopeForm ==> DefaultValue(f) == Scope(DefaultManagementScope())
    ensures FormOf(f) == MetricsForm ==> DefaultValue(f) == Metrics(DefaultImpactMetrics())
    ensures FormOf(f) == MappingForm ==> DefaultValue(f) == Dict([])
    ensures FormOf(f) == ListForm ==> DefaultValue(f) == List([])
    ensures FormOf(f) == OptionalForm ==> DefaultValue(f) == Null
  {
  }

  /** The argument for a field the raw project omits is the field's default, `""` for the name. */
  lemma FieldArgAbsent(raw: Value, f: F.Field)
    requires raw.Dict? && !Py.HasKey(raw.entries, F.Key(f))
    ensures FieldArg(raw, f) == Ok(if f == F.ProjectName then Str("") else DefaultValue(f))
  {
    DefaultByForm(f);
  }

  /** The argument for a field given as null is the field's default, except for the name. */
  lemma FieldArgNull(raw: Value, f: F.Field)
    requires f != F.ProjectName
    requires raw.Dict? && Py.HasKey(raw.entries, F.Key(f)) && Py.Find(raw.entries, F.Key(f)).value == Null
    ensures FieldArg(raw, f) == Ok(DefaultValue(f))
  {
    DefaultByForm(f);
  }

  /** A field the raw project omits takes its default; an omitted name becomes `""`. */
  lemma AbsentFieldDefaults(raw: Value, f: F.Field)
    requires ParseProject(raw).Ok?
    requires raw.Dict? && !Py.HasKey(raw.entries, F.Key(f))
    ensures ParseProject(raw).value[f] == (if f == F.ProjectName then Str("") else DefaultValue(f))
  {
    FieldArgAbsent(raw, f);
  }

  /** A field other than the name given as null becomes its default (`raw.get("project_name", "")`
      keeps an explicit null). */
  lemma NullFieldDefaults(raw: Value, f: F.Field)
    requires ParseProject(raw).Ok?
    requires f != F.ProjectName
    requires raw.Dict? && Py.HasKey(raw.entries, F.Key(f)) && Py.Find(raw.entries, F.Key(f)).value == Null
    ensures ParseProject(raw).value[f] == DefaultValue(f)
  {
    FieldArgNull(raw, f);
  }

  /** A list-typed field given as a list keeps it. */
  lemma ListFieldKept(raw: Value, f: F.Field)
    requires ParseProject(raw).Ok?
    requires F.KindOf(f) == F.SequenceKind && f != F.LlmSecondaryRoles
    requires raw.Dict? && Py.HasKey(raw.entries, F.Key(f)) && Py.Find(raw.entries, F.Key(f)).value.List?
    ensures ParseProject(raw).value[f] == Py.Find(raw.entries, F.Key(f)).value
  {
    assert FormOf(f) == ListForm;
  }

  /** `for raw in data.get("projects", [])` followed by validating and constructing each
      project; an absent list gives no projects, a null one raises TypeError. */
  function ParsedProjects(data: Value): (r: Result<seq<Project>>)
    ensures !data.Dict? ==> r.Err?
    ensures data.Dict? && !Py.HasKey(data.entries, "projects") ==> r == Ok([])
    ensures data.Dict? && Py.HasKey(data.entries, "projects") && Py.Find(data.entries, "projects").value == Null ==>
              r.Err? && r.error.TypeError?
    ensures r.Ok? && Py.Find(data.entries, "projects").Some? && Py.Find(data.entries, "projects").value.List? ==>
              var raws := Py.Find(data.entries, "projects").value.items;
              |r.value| == |raws| && forall i | 0 <= i < |raws| :: ParseProject(raws[i]) == Ok(r.value[i])
    ensures var listed := ListedUnder(data, "projects");
      r.Ok? <==> listed.Ok? && forall i | 0 <= i < |listed.value| :: ParseProject(listed.value[i]).Ok?
    ensures var listed := ListedUnder(data, "projects");
      r.Ok? ==> |r.value| == |listed.value| && forall i | 0 <= i < |listed.value| :: ParseProject(listed.value[i]) == Ok(r.value[i])
    ensures var listed := ListedUnder(data, "projects");
      listed.Err? ==> r == Err(listed.error)
    ensures var listed := ListedUnder(data, "projects");
      listed.Ok? && r.Err? ==>
        exists i | 0 <= i < |listed.value| ::
          (forall j | 0 <= j < i :: ParseProject(listed.value[j]).Ok?) && ParseProject(listed.value[i]) == Err(r.error)
  {
    var listed :- Py.Get(data, "projects", List([]));
    var raws :- Py.Iterate(listed);
    MapResult(raws, ParseProject)
  }

  /** `_parse_projects`: the loop that validates each raw project, constructs it and
      appends it, raising at the first bad project. */
  method ParseProjects(data: Value) returns (r: Result<seq<Project>>)
    ensures r == ParsedProjects(data)
  {
    var listed :- Py.Get(data, "projects", List([]));
    var raws :- Py.Iterate(listed);
    var projects: seq<Project> := [];
    var i := 0;
    while i < |raws|
      invariant 0 <= i <= |raws|
      invariant MapResult(raws[..i], ParseProject) == Ok(projects)
    {
      var checked := ValidateProjectEnums(raws[i]);
      if checked.Err? {
        MapResultStops(raws, ParseProject, i, projects);
        return Err(checked.error);
      }
      var built := BuildProject(raws[i]);
      if built.Err? {
        MapResultStops(raws, ParseProject, i, projects);
        return Err(built.error);
      }
      MapResultExtend(raws, ParseProject, i, projects, built.value);
      projects := projects + [built.value];
      i := i + 1;
    }
    assert raws[..i] == raws;
    return Ok(projects);
  }

  // ---------------------------------------------------------------------------
  // _parse_personal, _parse_skills, _parse_work

  /** `models.EducationEntry(description=e["description"])` */
  function ParseEducation(e: Value): (r: Result<EducationEntry>)
    ensures r.Ok? <==> e.Dict? && Py.HasKey(e.entries, "description")
    ensures r.Ok? ==> r.value.description == Py.Find(e.entries, "description").value
  {
    var description :- Py.Subscript(e, "description");
    Ok(EducationEntry(description))
  }

  /** `models.Certification(name=item["name"], url=item.get("url"))` */
  function ParseCertification(item: Value): (r: Result<Certification>)
    ensures r.Ok? <==> item.Dict? && Py.HasKey(item.entries, "name")
    ensures r.Ok? ==> r.value.name == Py.Find(item.entries, "name").value
    ensures r.Ok? ==> Py.Given(item.entries, "url", Null, r.value.url)
  {
    var name :- Py.Subscript(item, "name");
    Ok(Certification(name, Py.Lookup(item.entries, "url", Null)))
  }

  /** The elements `for x in data.get(key, [])` visits (no `or []`: a null list raises). */
  function ListedUnder(data: Value, key: string): (r: Result<seq<Value>>)
    ensures r.Ok? ==> data.Dict?
    ensures data.Dict? && !Py.HasKey(data.entries, key) ==> r == Ok([])
    ensures data.Dict? && Py.HasKey(data.entries, key) && Py.Find(data.entries, key).value.List? ==>
              r == Ok(Py.Find(data.entries, key).value.items)
  {
    var listed :- Py.Get(data, key, List([]));
    Py.Iterate(listed)
  }

  /** `_parse_personal` */
  function ParsePersonal(data: Value): (r: Result<PersonalInfo>)
    ensures r.Ok? ==> data.Dict?
    ensures r.Ok? ==> (ListedUnder(data, "education").Ok? &&
              MapResult(ListedUnder(data, "education").value, ParseEducation) == Ok(r.value.education))
    ensures r.Ok? ==> (ListedUnder(data, "certifications").Ok? &&
              MapResult(ListedUnder(data, "certifications").value, ParseCertification) == Ok(r.value.certifications))
    ensures var edu := ListedUnder(data, "education"); var certs := ListedUnder(data, "certifications");
      r.Ok? <==>
        edu.Ok? && (forall i | 0 <= i < |edu.value| :: ParseEducation(edu.value[i]).Ok?)
        && certs.Ok? && (forall i | 0 <= i < |certs.value| :: ParseCertification(certs.value[i]).Ok?)
    ensures r.Ok? ==>
              var d := data.entries;
              Py.Given(d, "name", Str(""), r.value.name) && Py.Given(d, "phone", Null, r.value.phone)
              && Py.Given(d, "email", Null, r.value.email) && Py.Given(d, "address", Null, r.value.address)
              && Py.Given(d, "hukou", Null, r.value.hukou) && Py.Given(d, "gender", Null, r.value.gender)
              && Py.Given(d, "github", Null, r.value.github)
  {
    var eduItems :- ListedUnder(data, "education");
    var education :- MapResult(eduItems, ParseEducation);
    var certItems :- ListedUnder(data, "certifications");
    var certs :- MapResult(certItems, ParseCertification);
    var d := data.entries;
    Ok(PersonalInfo(Py.Lookup(d, "name", Str("")), Py.Lookup(d, "phone", Null), Py.Lookup(d, "email", Null),
                    Py.Lookup(d, "address", Null), Py.Lookup(d, "hukou", Null), Py.Lookup(d, "gender", Null),
                    Py.Lookup(d, "github", Null), education, certs))
  }

  /** `models.SkillCategory(category=item.get("category", ""), items=list(item.get("items", [])))` */
  function ParseSkillCategory(item: Value): (r: Result<SkillCategory>)
    ensures r.Ok? ==> item.Dict?
    ensures r.Ok? <==> item.Dict? && ListedUnder(item, "items").Ok?
    ensures r.Ok? ==> Py.Given(item.entries, "category", Str(""), r.value.category)
    ensures r.Ok? ==> r.value.items == ListedUnder(item, "items").value
    ensures item.Dict? && !Py.HasKey(item.entries, "items") ==> r.Ok? && r.value.items == []
    ensures item.Dict? && Py.HasKey(item.entries, "items") && Py.Find(item.entries, "items").value == Null ==> r.Err?
  {
    var items :- ListedUnder(item, "items");
    Ok(SkillCategory(Py.Lookup(item.entries, "category", Str("")), items))
  }

  /** `_parse_skills` */
  function ParseSkills(data: Value): (r: Result<SkillsSummary>)
    ensures var listed := ListedUnder(data, "skills");
      r.Ok? <==> listed.Ok? && forall i | 0 <= i < |listed.value| :: ParseSkillCategory(listed.value[i]).Ok?
    ensures var listed := ListedUnder(data, "skills");
      r.Ok? ==> |r.value.categories| == |listed.value|
                && forall i | 0 <= i < |listed.value| :: ParseSkillCategory(listed.value[i]) == Ok(r.value.categories[i])
  {
    var items :- ListedUnder(data, "skills");
    var categories :- MapResult(items, ParseSkillCategory);
    Ok(SkillsSummary(categories))
  }

  /** One `models.WorkExperienceEntry(...)` of `_parse_work`. */
  function ParseExperience(item: Value): (r: Result<WorkExperienceEntry>)
    ensures r.Ok? <==> item.Dict?
    ensures r.Ok? ==>
              Py.Given(item.entries, "company", Str(""), r.value.company)
              && Py.Given(item.entries, "duration", Null, r.value.duration)
              && Py.Given(item.entries, "title", Null, r.value.title)
  {
    if !item.Dict? then Err(Py.NoGet)
    else Ok(WorkExperienceEntry(Py.Lookup(item.entries, "company", Str("")), Py.Lookup(item.entries, "duration", Null),
                                Py.Lookup(item.entries, "title", Null)))
  }

  /** One `models.RoleResponsibility(...)` of `_parse_work`. */
  function ParseRoleResponsibility(item: Value): (r: Result<RoleResponsibility>)
    ensures r.Ok? ==> item.Dict?
    ensures r.Ok? <==> item.Dict? && ItemsOf(item, "responsibilities").Ok?
    ensures r.Ok? ==> Py.Given(item.entries, "role", Str(""), r.value.role)
    ensures r.Ok? ==> r.value.responsibilities == ItemsOf(item, "responsibilities").value
    ensures item.Dict? && (!Py.HasKey(item.entries, "responsibilities") || Py.Find(item.entries, "responsibilities").value == Null) ==>
              r.Ok? && r.value.responsibilities == []
  {
    var responsibilities :- ItemsOf(item, "responsibilities");
    Ok(RoleResponsibility(Py.Lookup(item.entries, "role", Str("")), responsibilities))
  }

  /** `_parse_work`: the experiences and role responsibilities, in input order. */
  function ParseWork(data: Value): (r: Result<WorkSummary>)
    ensures r.Ok? ==> data.Dict?
    ensures var exps := ListedUnder(data, "experiences"); var roles := ListedUnder(data, "role_responsibilities");
      r.Ok? <==>
        exps.Ok? && (forall i | 0 <= i < |exps.value| :: ParseExperience(exps.value[i]).Ok?)
        && roles.Ok? && (forall i | 0 <= i < |roles.value| :: ParseRoleResponsibility(roles.value[i]).Ok?)
    ensures r.Ok? ==> (ListedUnder(data, "experiences").Ok? &&
              MapResult(ListedUnder(data, "experiences").value, ParseExperience) == Ok(r.value.experiences))
    ensures r.Ok? ==> (ListedUnder(data, "role_responsibilities").Ok? &&
              MapResult(ListedUnder(data, "role_responsibilities").value, ParseRoleResponsibility)
                == Ok(r.value.roleResponsibilities))
  {
    var expItems :- ListedUnder(data, "experiences");
    var experiences :- MapResult(expItems, ParseExperience);
    var roleItems :- ListedUnder(data, "role_responsibilities");
    var roles :- MapResult(roleItems, ParseRoleResponsibility);
    Ok(WorkSummary(experiences, roles))
  }

  /** `_parse_work` keeps the number and order of experiences and defaults a missing company to `""`. */
  lemma {:induction false} ParseWorkKeepsExperiences(data: Value, i: nat)
    requires ParseWork(data).Ok?
    requires data.Dict? && Py.HasKey(data.entries, "experiences") && Py.Find(data.entries, "experiences").value.List?
    ensures var items := Py.Find(data.entries, "experiences").value.items;
      |ParseWork(data).value.experiences| == |items|
    ensures var items := Py.Find(data.entries, "experiences").value.items;
      i < |items| && items[i].Dict? && !Py.HasKey(items[i].entries, "company") ==>
        ParseWork(data).value.experiences[i].company == Str("")
  {
    var items := Py.Find(data.entries, "experiences").value.items;
    var exps := ParseWork(data).value.experiences;
    assert MapResult(items, ParseExperience) == Ok(exps);
    if i < |items| {
      assert ParseExperience(items[i]) == Ok(exps[i]);
    }
  }

  /** `load_resume_data`, given the parsed contents of each data file by name;
      the base directory is part of `read`. */
  function LoadResumeData(locale: string, read: string -> Value): (r: Result<ResumeDocument>)
    ensures r.Ok? <==>
              ParsePersonal(read(DataFile("personal_info_summary", locale))).Ok?
              && ParseSkills(read(DataFile("skills_summary", locale))).Ok?
              && ParsedProjects(read(DataFile("projects_summary", locale))).Ok?
              && ParseWork(read(DataFile("work_experience_summary", locale))).Ok?
    ensures ParsePersonal(read(DataFile("personal_info_summary", locale))).Err? ==>
              r == Err(ParsePersonal(read(DataFile("personal_info_summary", locale))).error)
    ensures r.Ok? ==> ParsePersonal(read(DataFile("personal_info_summary", locale))) == Ok(r.value.personalInfo)
    ensures r.Ok? ==> ParseSkills(read(DataFile("skills_summary", locale))) == Ok(r.value.skills)
    ensures r.Ok? ==> ParsedProjects(read(DataFile("projects_summary", locale))) == Ok(r.value.projects)
    ensures r.Ok? ==> ParseWork(read(DataFile("work_experience_summary", locale))) == Ok(r.value.work)
  {
    var personal :- ParsePersonal(read(DataFile("personal_info_summary", locale)));
    var skills :- ParseSkills(read(DataFile("skills_summary", locale)));
    var projects :- ParsedProjects(read(DataFile("projects_summary", locale)));
    var work :- ParseWork(read(DataFile("work_experience_summary", locale)));
    Ok(ResumeDocument(personal, skills, projects, work))
  }

  /** The English locale reads the `_en` files, every other locale the unsuffixed ones. */
  lemma DataFileNames(locale: string)
    ensures locale == "en-US" ==> DataFile("projects_summary", locale) == "projects_summary_en.yaml"
    ensures locale != "en-US" ==> DataFile("projects_summary", locale) == "projects_summary.yaml"
  {
  }

  /** Every loaded project carries no role hints. */
  lemma {:induction false} LoadedProjectsHaveNoRoleHints(data: Value, i: nat)
    requires ParsedProjects(data).Ok? && i < |ParsedProjects(data).value|
    ensures ParsedProjects(data).value[i][F.LlmPrimaryRole] == Null
    ensures ParsedProjects(data).value[i][F.LlmSecondaryRoles] == List([])
  {
    var raws := Py.Iterate(Py.Get(data, "projects", List([])).value).value;
    var ps := ParsedProjects(data).value;
    assert MapResult(raws, ParseProject) == Ok(ps);
    assert ParseProject(raws[i]) == Ok(ps[i]);
  }
}
