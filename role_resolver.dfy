/** `resolve_polish_role` of resume_docs/llm_role_resolver.py: which role, if any,
    the polisher writes a project's text for. */
module RoleResolver {
  import F = Fields
  import opened Models
  import opened Results
  import opened RoleConfig
  import Py

  /** `set(ROLE_FILTERS.keys())` */
  function AllowedRoles(): (s: set<string>)
    ensures forall k :: k in s <==> k in RoleKeys()
  {
    set k | k in RoleKeys()
  }

  /** A value naming a configured role. */
  predicate IsRole(v: Value) {
    v.Str? && v.s in RoleKeys()
  }

  /** The global role once an unknown one has been dropped. */
  function NormalizeGlobal(globalRole: Option<string>): (g: Option<string>)
    ensures g.Some? <==> globalRole.Some? && globalRole.value in RoleKeys()
    ensures g.Some? ==> g == globalRole
  {
    if globalRole.Some? && globalRole.value in AllowedRoles() then globalRole else None
  }

  /** `project.llm_primary_role if project.llm_primary_role in allowed_roles else None`;
      the set lookup hashes the value, so a list or dict raises TypeError. */
  function PrimaryHint(v: Value): (r: Result<Option<string>>)
    ensures r.Ok? <==> Py.Hashable(v)
    ensures r.Ok? ==> (r.value.Some? <==> IsRole(v))
    ensures r.Ok? && r.value.Some? ==> v == Str(r.value.value)
  {
    var member :- Py.Member(v, AllowedRoles());
    if member then Ok(Some(v.s)) else Ok(None)
  }

  /** The elements `project.llm_secondary_roles or []` iterates over. */
  function SecondaryCandidates(v: Value): Result<seq<Value>> {
    Py.Iterate(Py.Or(v, List([])))
  }

  /** `[r for r in xs if r in allowed_roles]`: the configured roles among `xs`. */
  function FilterRoles(xs: seq<Value>): (r: Result<seq<string>>)
    ensures r.Ok? <==> forall i | 0 <= i < |xs| :: Py.Hashable(xs[i])
    ensures r.Ok? ==> forall k :: k in r.value <==> Str(k) in xs && k in RoleKeys()
    decreases |xs|
  {
    if |xs| == 0 then Ok([])
    else
      var keep :- Py.Member(xs[0], AllowedRoles());
      var rest :- FilterRoles(xs[1..]);
      assert xs == [xs[0]] + xs[1..];
      Ok(if keep then [xs[0].s] + rest else rest)
  }

  /** `resolve_polish_role`. A valid global role the project names as its primary or as a
      secondary role is used first; otherwise the project's valid primary role; otherwise
      the valid global role; otherwise None. */
  function ResolvePolishRole(globalRole: Option<string>, p: Project): (r: Result<Option<string>>)
    ensures r.Ok? <==>
              (Py.Hashable(p[F.LlmPrimaryRole]) && SecondaryCandidates(p[F.LlmSecondaryRoles]).Ok? &&
               forall i | 0 <= i < |SecondaryCandidates(p[F.LlmSecondaryRoles]).value| ::
                 Py.Hashable(SecondaryCandidates(p[F.LlmSecondaryRoles]).value[i]))
    ensures r.Ok? && r.value.Some? ==> r.value.value in RoleKeys()
    ensures r.Ok? && r.value.Some? ==>
              r.value == NormalizeGlobal(globalRole) || p[F.LlmPrimaryRole] == Str(r.value.value)
    ensures r.Ok? ==> (r.value.None? <==> NormalizeGlobal(globalRole).None? && !IsRole(p[F.LlmPrimaryRole]))
    ensures r.Ok? && NormalizeGlobal(globalRole).Some? && p[F.LlmPrimaryRole] == Str(globalRole.value) ==>
              r.value == globalRole
    ensures r.Ok? && NormalizeGlobal(globalRole).Some? && SecondaryCandidates(p[F.LlmSecondaryRoles]).Ok? &&
              Str(globalRole.value) in SecondaryCandidates(p[F.LlmSecondaryRoles]).value ==>
              r.value == globalRole
    ensures r.Ok? && IsRole(p[F.LlmPrimaryRole]) && NormalizeGlobal(globalRole).Some? ==>
              (r.value == globalRole || r.value == Some(p[F.LlmPrimaryRole].s))
    ensures r.Ok? && IsRole(p[F.LlmPrimaryRole]) && NormalizeGlobal(globalRole).Some? &&
              p[F.LlmPrimaryRole] != Str(globalRole.value) &&
              SecondaryCandidates(p[F.LlmSecondaryRoles]).Ok? &&
              Str(globalRole.value) !in SecondaryCandidates(p[F.LlmSecondaryRoles]).value ==>
              r.value == Some(p[F.LlmPrimaryRole].s)
    ensures r.Ok? && IsRole(p[F.LlmPrimaryRole]) && NormalizeGlobal(globalRole).None? ==>
              r.value == Some(p[F.LlmPrimaryRole].s)
  {
    var global := NormalizeGlobal(globalRole);
    var primary :- PrimaryHint(p[F.LlmPrimaryRole]);
    var candidates :- SecondaryCandidates(p[F.LlmSecondaryRoles]);
    var secondary :- FilterRoles(candidates);
    if global.Some? && (primary == global || global.value in secondary) then Ok(global)
    else if primary.Some? then Ok(primary)
    else if global.Some? then Ok(global)
    else Ok(None)
  }

  /** A valid global role the project does not name loses to the project's primary role,
      whatever form the secondary roles take (None, a list, or any other iterable value). */
  lemma {:induction false} PrimaryBeatsIncompatibleGlobal(globalRole: string, p: Project)
    requires IsRole(p[F.LlmPrimaryRole]) && p[F.LlmPrimaryRole] != Str(globalRole)
    requires SecondaryCandidates(p[F.LlmSecondaryRoles]).Ok?
    requires var c := SecondaryCandidates(p[F.LlmSecondaryRoles]).value;
      Str(globalRole) !in c && forall i | 0 <= i < |c| :: Py.Hashable(c[i])
    ensures ResolvePolishRole(Some(globalRole), p) == Ok(Some(p[F.LlmPrimaryRole].s))
  {
    var candidates := SecondaryCandidates(p[F.LlmSecondaryRoles]).value;
    var secondary := FilterRoles(candidates);
    assert secondary.Ok?;
    assert globalRole !in secondary.value;
  }

  /** The secondary roles a redacted project carries, None, are no hint at all. */
  lemma NullSecondariesAreNoCandidates()
    ensures SecondaryCandidates(Null) == Ok([])
  {
    assert Py.Or(Null, List([])) == List([]);
  }

  /** A project without role hints, as the loader builds it, is polished for the valid
      global role, or without a role. */
  lemma {:induction false} NoHintsFallsBackToGlobal(globalRole: Option<string>, p: Project)
    requires p[F.LlmPrimaryRole] == Null && p[F.LlmSecondaryRoles] == List([])
    ensures ResolvePolishRole(globalRole, p) == Ok(NormalizeGlobal(globalRole))
  {
    assert SecondaryCandidates(p[F.LlmSecondaryRoles]) == Ok([]);
    assert FilterRoles([]) == Ok([]);
  }
}
