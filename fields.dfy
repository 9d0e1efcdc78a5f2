/** The fixed field set of the `Project` record (resume_docs/models.py), in declaration order. */
module Fields {

  datatype Field =
    | ProjectName | CompanyOrContext | Timeframe | RoleTitle | RolePerspective
    | LlmPrimaryRole | LlmSecondaryRoles | ManagementScope | DecisionAccountability
    | ResponsibilityFocus | ImpactMetrics | GovernanceArtifacts | ProjectOverview
    | DataDomain | AiComponentFlag | ChallengesOrObjectives | Responsibilities
    | ArchitectureOrSolution | ProcessOrMethodology | DeliverablesOrFeatures
    | MetricsOrImpact | TechStack | ToolsPlatforms | TeamInfo | Notes

  /** The declared type of a field, as the dataclass annotation gives it. */
  datatype Kind =
    | TextKind       // str / Optional[str]
    | FlagKind       // Optional[bool]
    | SequenceKind   // List[str]
    | TimeframeKind  // Timeframe
    | ScopeKind      // ManagementScope
    | MetricsKind    // ImpactMetrics
    | MappingKind    // Dict[str, object]

  /** The order in which `__dataclass_fields__` lists the fields. */
  const Order: seq<Field> := [
    ProjectName, CompanyOrContext, Timeframe, RoleTitle, RolePerspective,
    LlmPrimaryRole, LlmSecondaryRoles, ManagementScope, DecisionAccountability,
    ResponsibilityFocus, ImpactMetrics, GovernanceArtifacts, ProjectOverview,
    DataDomain, AiComponentFlag, ChallengesOrObjectives, Responsibilities,
    ArchitectureOrSolution, ProcessOrMethodology, DeliverablesOrFeatures,
    MetricsOrImpact, TechStack, ToolsPlatforms, TeamInfo, Notes]

  /** The Python attribute name of a field. */
  function Key(f: Field): string {
    match f
    case ProjectName => "project_name"
    case CompanyOrContext => "company_or_context"
    case Timeframe => "timeframe"
    case RoleTitle => "role_title"
    case RolePerspective => "role_perspective"
    case LlmPrimaryRole => "llm_primary_role"
    case LlmSecondaryRoles => "llm_secondary_roles"
    case ManagementScope => "management_scope"
    case DecisionAccountability => "decision_accountability"
    case ResponsibilityFocus => "responsibility_focus"
    case ImpactMetrics => "impact_metrics"
    case GovernanceArtifacts => "governance_artifacts"
    case ProjectOverview => "project_overview"
    case DataDomain => "data_domain"
    case AiComponentFlag => "ai_component_flag"
    case ChallengesOrObjectives => "challenges_or_objectives"
    case Responsibilities => "responsibilities"
    case ArchitectureOrSolution => "architecture_or_solution"
    case ProcessOrMethodology => "process_or_methodology"
    case DeliverablesOrFeatures => "deliverables_or_features"
    case MetricsOrImpact => "metrics_or_impact"
    case TechStack => "tech_stack"
    case ToolsPlatforms => "tools_platforms"
    case TeamInfo => "team_info"
    case Notes => "notes"
  }

  function KindOf(f: Field): Kind {
    match f
    case ProjectName | CompanyOrContext | RoleTitle | RolePerspective | LlmPrimaryRole
      | ProjectOverview | DataDomain | Notes => TextKind
    case AiComponentFlag => FlagKind
    case Timeframe => TimeframeKind
    case ManagementScope => ScopeKind
    case ImpactMetrics => MetricsKind
    case TeamInfo => MappingKind
    case LlmSecondaryRoles | DecisionAccountability | ResponsibilityFocus | GovernanceArtifacts
      | ChallengesOrObjectives | Responsibilities | ArchitectureOrSolution | ProcessOrMethodology
      | DeliverablesOrFeatures | MetricsOrImpact | TechStack | ToolsPlatforms => SequenceKind
  }

  /** The field loop visits every field exactly once. */
  lemma OrderListsEveryField(f: Field)
    ensures f in Order
  {
  }

  lemma OrderIsDuplicateFree()
    ensures |Order| == 25
    ensures forall i, j | 0 <= i < j < |Order| :: Order[i] != Order[j]
  {
  }

  /** A map holds a value for every field. */
  predicate Complete<V>(m: map<Field, V>) {
    forall f: Field :: f in m
  }

  /** The record whose every field `f` holds `g(f)`. */
  function Build<V>(g: Field -> V): (m: map<Field, V>)
    ensures Complete(m)
    ensures forall f :: m[f] == g(f)
  {
    var m := map f | f in Order :: g(f);
    assert Complete(m) by {
      forall f: Field ensures f in m { OrderListsEveryField(f); }
    }
    m
  }
}
