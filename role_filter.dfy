/** `RoleFilter` of resume_docs/role_filter.py: checks the role key and redacts
    project fields by a visibility map. It neither filters nor reorders projects and
    leaves personal info, skills and work history alone. */
module RoleFilter {
  import F = Fields
  import opened Models
  import opened Results
  import opened RoleConfig
  import Text

  /** `_get_field_visibility`: the role's "field_visibility" entry, `{}` when the role
      is unknown or its entry has none. */
  function FieldVisibility(role: string): (vis: map<string, bool>)
    ensures role !in RoleKeys() ==> vis == map[]
    ensures Lookup(role).Some? && Lookup(role).value.fieldVisibility.None? ==> vis == map[]
  {
    match Lookup(role)
    case None => map[]
    case Some(policy) => policy.fieldVisibility.GetOr(map[])
  }

  /** With the configured table every role, known or not, gets the empty map. */
  lemma FieldVisibilityIsAlwaysEmpty(role: string)
    ensures FieldVisibility(role) == map[]
  {
    NoRoleDefinesFieldVisibility(role);
  }

  /** The field names that a hidden field turns into `[]` instead of None. */
  const ClearedToEmptyList: set<string> := {
    "governance_artifacts", "challenges_or_objectives", "responsibilities",
    "architecture_or_solution", "process_or_methodology", "deliverables_or_features",
    "metrics_or_impact", "tech_stack", "tools_platforms", "decision_accountability",
    "responsibility_focus"}

  /** `visibility.get(field_name, True)` */
  predicate Shown(vis: map<string, bool>, f: F.Field) {
    F.Key(f) in vis ==> vis[F.Key(f)]
  }

  /** What a hidden field is replaced by. */
  function HiddenValue(f: F.Field): Value {
    if F.Key(f) in ClearedToEmptyList then List([]) else Null
  }

  /** The value `_filter_project_fields` stores for one field. */
  function RedactedValue(p: Project, vis: map<string, bool>, f: F.Field): Value {
    if Shown(vis, f) then p[f] else HiddenValue(f)
  }

  /** The project `_filter_project_fields` builds: shown fields copied, hidden ones replaced. */
  function Redacted(p: Project, vis: map<string, bool>): (r: Project)
    ensures forall f :: Shown(vis, f) ==> r[f] == p[f]
    ensures forall f :: !Shown(vis, f) ==> r[f] == HiddenValue(f)
  {
    F.Build(f => RedactedValue(p, vis, f))
  }

  /** A record with the redacted value in every field is the redacted project. */
  lemma RedactedByFields(p: Project, vis: map<string, bool>, m: map<F.Field, Value>)
    requires F.Complete(m) && forall f :: m[f] == RedactedValue(p, vis, f)
    ensures m == Redacted(p, vis)
  {
    assert m.Keys == Redacted(p, vis).Keys;
  }

  /** `_filter_project_fields`: fills a field-name-to-value dict over the dataclass
      fields and rebuilds the project from it. */
  method FilterProjectFields(p: Project, vis: map<string, bool>) returns (r: Project)
    ensures r == Redacted(p, vis)
  {
    var filtered: map<F.Field, Value> := map[];
    var i := 0;
    while i < |F.Order|
      invariant 0 <= i <= |F.Order|
      invariant forall f :: f in filtered <==> f in F.Order[..i]
      invariant forall f | f in filtered :: filtered[f] == RedactedValue(p, vis, f)
    {
      var name := F.Order[i];
      var shown := if F.Key(name) in vis then vis[F.Key(name)] else true;
      if shown {
        filtered := filtered[name := p[name]];
      } else if F.Key(name) in ClearedToEmptyList {
        filtered := filtered[name := List([])];
      } else {
        filtered := filtered[name := Null];
      }
      i := i + 1;
    }
    assert F.Order[..i] == F.Order;
    forall f: F.Field ensures f in filtered {
      F.OrderListsEveryField(f);
    }
    RedactedByFields(p, vis, filtered);
    r := filtered;
  }

  /** Shown fields keep their value; hidden fields become `[]` when named in the
      list and None otherwise. */
  lemma RedactedField(p: Project, vis: map<string, bool>, f: F.Field)
    ensures F.Key(f) !in vis ==> Redacted(p, vis)[f] == p[f]
    ensures F.Key(f) in vis && vis[F.Key(f)] ==> Redacted(p, vis)[f] == p[f]
    ensures F.Key(f) in vis && !vis[F.Key(f)] && F.Key(f) in ClearedToEmptyList ==> Redacted(p, vis)[f] == List([])
    ensures F.Key(f) in vis && !vis[F.Key(f)] && F.Key(f) !in ClearedToEmptyList ==> Redacted(p, vis)[f] == Null
  {
  }

  /** The eleven names are exactly these fields, so every other field, record-typed
      ones included, is hidden as None. */
  lemma ClearedFieldsAre(f: F.Field)
    ensures F.Key(f) in ClearedToEmptyList <==>
      f in {F.GovernanceArtifacts, F.ChallengesOrObjectives, F.Responsibilities,
            F.ArchitectureOrSolution, F.ProcessOrMethodology, F.DeliverablesOrFeatures,
            F.MetricsOrImpact, F.TechStack, F.ToolsPlatforms, F.DecisionAccountability,
            F.ResponsibilityFocus}
  {
  }

  /** llm_secondary_roles is the one list-typed field missing from the list:
      hidden, it becomes None rather than `[]`. */
  lemma OnlySecondaryRolesListHidesToNone(f: F.Field)
    ensures (F.KindOf(f) == F.SequenceKind && HiddenValue(f) == Null) <==> f == F.LlmSecondaryRoles
  {
    ClearedFieldsAre(f);
  }

  /** With an empty visibility map the redacted project is the input. */
  lemma {:induction false} RedactedWithEmptyMap(p: Project)
    ensures Redacted(p, map[]) == p
  {
    var r := Redacted(p, map[]);
    forall f: F.Field ensures r[f] == p[f] {
      RedactedField(p, map[], f);
    }
    assert r.Keys == p.Keys;
  }

  /** Redacting twice with the same map is redacting once. */
  lemma {:induction false} RedactedIdempotent(p: Project, vis: map<string, bool>)
    ensures Redacted(Redacted(p, vis), vis) == Redacted(p, vis)
  {
    var once := Redacted(p, vis);
    var twice := Redacted(once, vis);
    forall f: F.Field ensures twice[f] == once[f] {
      RedactedField(p, vis, f);
      RedactedField(once, vis, f);
    }
    assert twice.Keys == once.Keys;
  }

  /** `_filter_projects`: every project redacted, same count, same order. */
  function FilterProjects(projects: seq<Project>, vis: map<string, bool>): (r: seq<Project>)
    ensures |r| == |projects|
    ensures forall i | 0 <= i < |projects| :: r[i] == Redacted(projects[i], vis)
  {
    seq(|projects|, i requires 0 <= i < |projects| => Redacted(projects[i], vis))
  }

  /** The text of the unknown-role ValueError. */
  function UnknownRoleMessage(role: string, available: seq<string>): (r: string)
    ensures Text.StartsWith(r, "Unknown role: " + role)
  {
    var head := "Unknown role: " + role;
    var r := head + ". Available: " + Text.Join(available, ", ");
    assert r[..|head|] == head;
    r
  }

  /** `filter_resume`: an unknown role fails, naming every configured role; otherwise
      only the projects change, each redacted by the role's visibility map. */
  function FilterResume(resume: ResumeDocument, role: string): (r: Result<ResumeDocument>)
    ensures r.Err? <==> role !in RoleKeys()
    ensures r.Err? ==> r.error == UnknownRole(role, RoleKeys())
    ensures r.Ok? ==> r.value.personalInfo == resume.personalInfo
    ensures r.Ok? ==> r.value.skills == resume.skills
    ensures r.Ok? ==> r.value.work == resume.work
    ensures r.Ok? ==> |r.value.projects| == |resume.projects|
    ensures r.Ok? ==> forall i | 0 <= i < |resume.projects| ::
              r.value.projects[i] == Redacted(resume.projects[i], FieldVisibility(role))
  {
    if role !in RoleKeys() then
      Err(UnknownRole(role, RoleKeys()))
    else
      var visibility := FieldVisibility(role);
      Ok(ResumeDocument(resume.personalInfo, resume.skills,
                        FilterProjects(resume.projects, visibility), resume.work))
  }

  /** The unknown-role message lists every configured role key. */
  lemma UnknownRoleMessageListsEveryRole(resume: ResumeDocument, role: string, k: nat)
    requires role !in RoleKeys() && k < |RoleKeys()|
    ensures FilterResume(resume, role).Err?
    ensures var e := FilterResume(resume, role).error;
      Text.Contains(UnknownRoleMessage(e.role, e.available), RoleKeys()[k])
  {
    var keys := RoleKeys();
    Text.JoinContainsItems(keys, ", ", k);
    Text.ContainsInConcat("Unknown role: " + role + ". Available: ", Text.Join(keys, ", "), "", keys[k]);
    assert "Unknown role: " + role + ". Available: " + Text.Join(keys, ", ") + ""
        == UnknownRoleMessage(role, keys);
  }

  /** With the configured table, filtering by any known role returns the résumé unchanged. */
  lemma {:induction false} FilterResumeIsIdentityForEveryRole(resume: ResumeDocument, role: string)
    requires role in RoleKeys()
    ensures FilterResume(resume, role) == Ok(resume)
  {
    FieldVisibilityIsAlwaysEmpty(role);
    var projects := FilterProjects(resume.projects, map[]);
    forall i | 0 <= i < |resume.projects| ensures projects[i] == resume.projects[i] {
      RedactedWithEmptyMap(resume.projects[i]);
    }
    assert projects == resume.projects;
  }
}
