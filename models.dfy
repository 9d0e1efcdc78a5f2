/** The résumé record model of resume_docs/models.py, and the dynamic Python values
    that YAML loading produces and that the dataclass fields hold. */
module Models {
  import F = Fields

  /** A Python value as this core sees it: the YAML scalars and containers
      (a dict is an insertion-ordered list of entries) and instances of the three
      nested dataclasses. */
  datatype Value =
    | Null
    | Str(s: string)
    | Bool(b: bool)
    | Int(i: int)
    | List(items: seq<Value>)
    | Dict(entries: seq<(string, Value)>)
    | Time(timeframe: Timeframe)
    | Scope(scope: ManagementScope)
    | Metrics(metrics: ImpactMetrics)

  datatype Timeframe = Timeframe(labelText: Value, start: Value, end: Value)

  datatype ManagementScope = ManagementScope(teamSize: Value, budgetLevel: Value, stakeholderTiers: Value)

  datatype ImpactMetrics = ImpactMetrics(businessMetrics: Value, technicalMetrics: Value, operationalMetrics: Value)

  /** `Timeframe()` */
  function DefaultTimeframe(): (t: Timeframe)
    ensures t.labelText == Null && t.start == Null && t.end == Null
  {
    Timeframe(Null, Null, Null)
  }

  /** `ManagementScope()` */
  function DefaultManagementScope(): (m: ManagementScope)
    ensures m.teamSize == Null && m.budgetLevel == Null && m.stakeholderTiers == List([])
  {
    ManagementScope(Null, Null, List([]))
  }

  /** `ImpactMetrics()` */
  function DefaultImpactMetrics(): (m: ImpactMetrics)
    ensures m.businessMetrics == List([]) && m.technicalMetrics == List([])
    ensures m.operationalMetrics == List([])
  {
    ImpactMetrics(List([]), List([]), List([]))
  }

  /** `ImpactMetrics.grouped()`: the three categories, labelled, in a fixed order. */
  function Grouped(m: ImpactMetrics): (r: seq<(string, Value)>)
    ensures |r| == 3
    ensures r[0] == ("Business", m.businessMetrics)
    ensures r[1] == ("Technical", m.technicalMetrics)
    ensures r[2] == ("Operational", m.operationalMetrics)
  {
    [("Business", m.businessMetrics), ("Technical", m.technicalMetrics), ("Operational", m.operationalMetrics)]
  }

  /** A project: a value for each of its fixed fields. Any field may hold any value
      (a dataclass does not check its annotations), and the redactor stores None
      even in fields declared as records. */
  type Project = m: map<F.Field, Value> | F.Complete(m) witness F.Build(_ => Null)

  /** The default a field takes when a `Project` is built without it. */
  function DefaultValue(f: F.Field): (v: Value) {
    match F.KindOf(f)
    case TextKind => Null
    case FlagKind => Null
    case SequenceKind => List([])
    case TimeframeKind => Time(DefaultTimeframe())
    case ScopeKind => Scope(DefaultManagementScope())
    case MetricsKind => Metrics(DefaultImpactMetrics())
    case MappingKind => Dict([])
  }

  /** `Project(project_name=name)`: the one required field, every other field defaulted. */
  function NewProject(name: Value): (p: Project)
    ensures p[F.ProjectName] == name
    ensures forall f | f != F.ProjectName :: p[f] == DefaultValue(f)
  {
    F.Build(f => if f == F.ProjectName then name else DefaultValue(f))
  }

  /** The defaults of a new project: empty lists, None scalars, empty nested records. */
  lemma NewProjectDefaults(name: Value, f: F.Field)
    requires f != F.ProjectName
    ensures F.KindOf(f) == F.SequenceKind ==> NewProject(name)[f] == List([])
    ensures F.KindOf(f) in {F.TextKind, F.FlagKind} ==> NewProject(name)[f] == Null
    ensures F.KindOf(f) == F.TimeframeKind ==> NewProject(name)[f] == Time(Timeframe(Null, Null, Null))
    ensures F.KindOf(f) == F.ScopeKind ==> NewProject(name)[f] == Scope(ManagementScope(Null, Null, List([])))
    ensures F.KindOf(f) == F.MetricsKind ==> NewProject(name)[f] == Metrics(ImpactMetrics(List([]), List([]), List([])))
    ensures F.KindOf(f) == F.MappingKind ==> NewProject(name)[f] == Dict([])
  {
  }

  datatype EducationEntry = EducationEntry(description: Value)

  datatype Certification = Certification(name: Value, url: Value)

  datatype PersonalInfo = PersonalInfo(
    name: Value, phone: Value, email: Value, address: Value, hukou: Value, gender: Value,
    github: Value, education: seq<EducationEntry>, certifications: seq<Certification>)

  datatype SkillCategory = SkillCategory(category: Value, items: seq<Value>)

  datatype SkillsSummary = SkillsSummary(categories: seq<SkillCategory>)

  datatype WorkExperienceEntry = WorkExperienceEntry(company: Value, duration: Value, title: Value)

  datatype RoleResponsibility = RoleResponsibility(role: Value, responsibilities: seq<Value>)

  datatype WorkSummary = WorkSummary(experiences: seq<WorkExperienceEntry>, roleResponsibilities: seq<RoleResponsibility>)

  /** `WorkSummary()` */
  function DefaultWorkSummary(): (w: WorkSummary)
    ensures w.experiences == [] && w.roleResponsibilities == []
  {
    WorkSummary([], [])
  }

  datatype ResumeDocument = ResumeDocument(
    personalInfo: PersonalInfo, skills: SkillsSummary, projects: seq<Project>, work: WorkSummary)
}
