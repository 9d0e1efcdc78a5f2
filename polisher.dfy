/** resume_docs/llm_polisher.py: rewriting each project's overview with a language model.
    The prompt texts, the model's reply and the URL search are parameters; what the
    polisher does around them (which prompt, which persona hint, how the reply is put into
    the project, which fields are cleared, which errors escape) is modelled. */
module Polisher {
  import F = Fields
  import opened Models
  import opened Results
  import Py
  import Text
  import Clients

  /** The language name `_get_language_from_locale` returns. */
  datatype Language = Chinese | English

  /** `_get_language_from_locale`: "zh…" locales are Chinese, every other one English. */
  function LanguageFromLocale(locale: string): (l: Language)
    ensures l == Chinese <==> Text.StartsWith(locale, "zh")
  {
    if Text.StartsWith(locale, "zh") then Chinese
    else if Text.StartsWith(locale, "en") then English
    else English
  }

  /** The key of the persona instructions for a language. */
  function LangKey(language: Language): string {
    if language == Chinese then "zh" else "en"
  }

  /** `_get_persona_hint`: no persona gives no hint; otherwise the instructions for the
      language, or the default ones when those are empty. `.get` needs dicts. */
  function PersonaHint(persona: Value, language: Language): (r: Result<Value>)
    ensures !Py.Truthy(persona) ==> r == Ok(Null)
    ensures Py.Truthy(persona) ==>
              (r.Ok? <==> persona.Dict? && Py.Lookup(persona.entries, "instructions", Dict([])).Dict?)
    ensures Py.Truthy(persona) && r.Ok? ==>
              var instructions := Py.Lookup(persona.entries, "instructions", Dict([])).entries;
              r.value == Py.Or(Py.Lookup(instructions, LangKey(language), Null),
                               Py.Lookup(instructions, "default", Null))
    ensures r.Err? ==> r.error == Py.NoGet
  {
    if !Py.Truthy(persona) then Ok(Null)
    else
      var instructions :- Py.Get(persona, "instructions", Dict([]));
      var own :- Py.Get(instructions, LangKey(language), Null);
      if Py.Truthy(own) then Ok(own) else Py.Get(instructions, "default", Null)
  }

  /** The prompt `_polish_single_project` asks for: the prompt loader's role-aware prompt
      when a role is given, its own polish prompt otherwise. */
  datatype Prompt =
    | RoleAwarePrompt(overview: Value, language: Language, role: string, hint: Value)
    | PolishPrompt(overview: Value, language: Language, hint: Value)

  /** `if role:` picks the role-aware prompt for a non-empty role name. */
  function PromptFor(overview: Value, language: Language, role: Option<string>, hint: Value): (p: Prompt)
    ensures p.RoleAwarePrompt? <==> role.Some? && role.value != ""
    ensures p.RoleAwarePrompt? ==> p.role == role.value
    ensures p.overview == overview && p.language == language && p.hint == hint
  {
    if role.Some? && role.value != "" then RoleAwarePrompt(overview, language, role.value, hint)
    else PolishPrompt(overview, language, hint)
  }

  /** What the model call gives back: its text, or the message of the exception it raised. */
  datatype Reply = Replied(content: string) | Raised(message: string)

  /** Everything `_polish_single_project` receives besides the project and the client, and
      the parts of its work outside this model: the text of each prompt (building one may
      raise), the raw reply of the model behind a client, and the URL
      `_extract_github_link` finds in a text. */
  datatype Settings = Settings(
    locale: string,
    persona: Value,
    role: Option<string>,
    render: Prompt -> Result<string>,
    model: (Clients.Provider, string) -> Reply,
    githubLink: string -> string)

  /** `client.invoke(prompt)`: the client post-processes the reply of its model. */
  function Invoke(provider: Clients.Provider, s: Settings, prompt: string): (r: Reply)
    ensures s.model(provider, prompt).Raised? ==> r == s.model(provider, prompt)
    ensures s.model(provider, prompt).Replied? ==>
              r == Replied(Clients.Respond(provider, s.model(provider, prompt).content))
  {
    match s.model(provider, prompt)
    case Replied(content) => Replied(Clients.Respond(provider, content))
    case Raised(message) => Raised(message)
  }

  /** The GitHub step: when the original mentions "github.com" and the polished text does
      not, the link found in the original is appended on a line of its own. */
  function KeepGithubLink(original: Value, text: string, link: string -> string): (r: Result<string>)
    ensures Py.In("github.com", original).Err? ==> r == Err(Py.In("github.com", original).error)
    ensures Py.In("github.com", original) == Ok(false) ==> r == Ok(text)
    ensures Py.In("github.com", original).Ok? && Text.Contains(text, "github.com") ==> r == Ok(text)
    ensures original.Str? && Text.Contains(original.s, "github.com") && !Text.Contains(text, "github.com") ==>
              r == Ok(text + "\nGitHub: " + link(original.s))
    ensures Py.In("github.com", original) == Ok(true) && !original.Str? && !Text.Contains(text, "github.com") ==>
              r.Err? && r.error.TypeError?
    ensures r.Ok? ==> Text.StartsWith(r.value, text)
    ensures (r.Ok? && original.Str? && Text.Contains(original.s, "github.com")
             && Text.Contains(link(original.s), "github.com")) ==> Text.Contains(r.value, "github.com")
  {
    var mentioned :- Py.In("github.com", original);
    if mentioned && !Text.Contains(text, "github.com") then
      if original.Str? then
        var url := link(original.s);
        assert Text.Contains(url, "github.com") ==> Text.Contains(text + "\nGitHub: " + url, "github.com") by {
          if Text.Contains(url, "github.com") {
            Text.ContainsInConcat(text + "\nGitHub: ", url, "", "github.com");
            assert text + "\nGitHub: " + url + "" == text + "\nGitHub: " + url;
          }
        }
        Ok(text + "\nGitHub: " + url)
      else Err(TypeError("expected string or bytes-like object"))
    else Ok(text)
  }

  /** The narrative lists `_polish_single_project` empties once the overview is rewritten. */
  predicate RawNarrative(f: F.Field) {
    f == F.ChallengesOrObjectives || f == F.Responsibilities || f == F.ArchitectureOrSolution
    || f == F.ProcessOrMethodology || f == F.DeliverablesOrFeatures || f == F.MetricsOrImpact
  }

  /** The fields the polisher overwrites. */
  predicate Rewritten(f: F.Field) {
    f == F.ProjectOverview || f == F.ImpactMetrics || RawNarrative(f)
  }

  /** `q` is `p` polished to `text`: the overview is the text, the raw narrative lists are
      empty, the impact metrics are reset, and every other field is unchanged. */
  predicate PolishedTo(p: Project, q: Project, text: string) {
    q[F.ProjectOverview] == Str(text)
    && (forall f | RawNarrative(f) :: q[f] == List([]))
    && q[F.ImpactMetrics] == Metrics(DefaultImpactMetrics())
    && forall f | !Rewritten(f) :: q[f] == p[f]
  }

  /** The polished copy of `p`: `_copy_project`, then the overview, the six narrative
      lists and the metrics assigned in turn. */
  function Polished(p: Project, text: string): (q: Project)
    ensures PolishedTo(p, q, text)
  {
    p[F.ProjectOverview := Str(text)]
     [F.ChallengesOrObjectives := List([])]
     [F.Responsibilities := List([])]
     [F.ArchitectureOrSolution := List([])]
     [F.ProcessOrMethodology := List([])]
     [F.DeliverablesOrFeatures := List([])]
     [F.MetricsOrImpact := List([])]
     [F.ImpactMetrics := Metrics(DefaultImpactMetrics())]
  }

  /** The model's reply to the prompt for a project with an overview, or the exception
      raised before the model is asked (a malformed persona, a prompt that cannot be
      built). */
  function Ask(p: Project, provider: Clients.Provider, s: Settings): (r: Result<Reply>)
    ensures var hint := PersonaHint(s.persona, LanguageFromLocale(s.locale));
      (hint.Err? ==> r == Err(hint.error))
      && (hint.Ok? ==>
            var prompt := s.render(PromptFor(p[F.ProjectOverview], LanguageFromLocale(s.locale), s.role, hint.value));
            (prompt.Err? ==> r == Err(prompt.error))
            && (prompt.Ok? ==> r == Ok(Invoke(provider, s, prompt.value))))
  {
    var language := LanguageFromLocale(s.locale);
    var hint :- PersonaHint(s.persona, language);
    var prompt :- s.render(PromptFor(p[F.ProjectOverview], language, s.role, hint));
    Ok(Invoke(provider, s, prompt))
  }

  /** What `_polish_single_project` returns. */
  function PolishOne(p: Project, provider: Clients.Provider, s: Settings): (r: Result<Project>)
    ensures !Py.Truthy(p[F.ProjectOverview]) ==> r == Ok(p)
    ensures Py.Truthy(p[F.ProjectOverview]) && r.Ok? ==>
              r.value[F.ProjectOverview].Str? && PolishedTo(p, r.value, r.value[F.ProjectOverview].s)
    ensures Py.Truthy(p[F.ProjectOverview]) ==>
              var asked := Ask(p, provider, s);
              (asked.Err? ==> r == Err(asked.error))
              && (asked.Ok? && asked.value.Raised? ==>
                    r == Err(PolishFailed(p[F.ProjectName], asked.value.message)))
              && (asked.Ok? && asked.value.Replied? ==>
                    var text := KeepGithubLink(p[F.ProjectOverview], Text.Strip(asked.value.content), s.githubLink);
                    (r.Ok? <==> text.Ok?) && (r.Ok? ==> PolishedTo(p, r.value, text.value))
                    && (r.Err? ==> r.error == text.error))
  {
    if !Py.Truthy(p[F.ProjectOverview]) then Ok(p)
    else
      var reply :- Ask(p, provider, s);
      match reply
      case Raised(message) => Err(PolishFailed(p[F.ProjectName], message))
      case Replied(content) =>
        var text :- KeepGithubLink(p[F.ProjectOverview], Text.Strip(content), s.githubLink);
        Ok(Polished(p, text))
  }

  /** `_polish_single_project`: the copy of the project is updated field by field. */
  method PolishSingleProject(p: Project, provider: Clients.Provider, s: Settings) returns (r: Result<Project>)
    ensures r == PolishOne(p, provider, s)
  {
    if !Py.Truthy(p[F.ProjectOverview]) {
      return Ok(p);
    }
    var overview := p[F.ProjectOverview];
    var language := LanguageFromLocale(s.locale);
    var hint := PersonaHint(s.persona, language);
    if hint.Err? {
      return Err(hint.error);
    }
    var prompt := s.render(PromptFor(overview, language, s.role, hint.value));
    if prompt.Err? {
      return Err(prompt.error);
    }
    var reply := Invoke(provider, s, prompt.value);
    if reply.Raised? {
      return Err(PolishFailed(p[F.ProjectName], reply.message));
    }
    var text := KeepGithubLink(overview, Text.Strip(reply.content), s.githubLink);
    if text.Err? {
      return Err(text.error);
    }
    var polished := CopyPolished(p, text.value);
    return Ok(polished);
  }

  /** The assignments on the copy of the project, one field after another. */
  method CopyPolished(p: Project, text: string) returns (polished: Project)
    ensures polished == Polished(p, text)
  {
    polished := p;
    polished := polished[F.ProjectOverview := Str(text)];
    polished := polished[F.ChallengesOrObjectives := List([])];
    polished := polished[F.Responsibilities := List([])];
    polished := polished[F.ArchitectureOrSolution := List([])];
    polished := polished[F.ProcessOrMethodology := List([])];
    polished := polished[F.DeliverablesOrFeatures := List([])];
    polished := polished[F.MetricsOrImpact := List([])];
    polished := polished[F.ImpactMetrics := Metrics(DefaultImpactMetrics())];
  }

  /** What `polish_projects` returns: the client for the model name, then each project
      polished in order; the first exception stops it. */
  function PolishedProjects(projects: seq<Project>, modelName: string, s: Settings): (r: Result<seq<Project>>)
    ensures Clients.GetLlmClient(modelName).Err? ==> r == Err(UnknownModel(modelName))
    ensures Clients.GetLlmClient(modelName).Ok? ==>
              var provider := Clients.GetLlmClient(modelName).value;
              (r.Ok? <==> forall i | 0 <= i < |projects| :: PolishOne(projects[i], provider, s).Ok?)
              && (r.Ok? ==>
                    |r.value| == |projects|
                    && forall i | 0 <= i < |projects| :: PolishOne(projects[i], provider, s) == Ok(r.value[i]))
    ensures Clients.GetLlmClient(modelName).Ok? && r.Err? ==>
              var provider := Clients.GetLlmClient(modelName).value;
              exists i | 0 <= i < |projects| ::
                (forall j | 0 <= j < i :: PolishOne(projects[j], provider, s).Ok?)
                && PolishOne(projects[i], provider, s) == Err(r.error)
  {
    var provider :- Clients.GetLlmClient(modelName);
    MapResult(projects, p => PolishOne(p, provider, s))
  }

  /** `polish_projects` */
  method PolishProjects(projects: seq<Project>, modelName: string, s: Settings) returns (r: Result<seq<Project>>)
    ensures r == PolishedProjects(projects, modelName, s)
  {
    var client := Clients.GetLlmClient(modelName);
    if client.Err? {
      return Err(client.error);
    }
    var provider := client.value;
    var polishedProjects: seq<Project> := [];
    var i := 0;
    while i < |projects|
      invariant 0 <= i <= |projects|
      invariant MapResult(projects[..i], p => PolishOne(p, provider, s)) == Ok(polishedProjects)
    {
      var polished := PolishSingleProject(projects[i], provider, s);
      if polished.Err? {
        MapResultStops(projects, p => PolishOne(p, provider, s), i, polishedProjects);
        return Err(polished.error);
      }
      MapResultExtend(projects, p => PolishOne(p, provider, s), i, polishedProjects, polished.value);
      polishedProjects := polishedProjects + [polished.value];
      i := i + 1;
    }
    assert projects[..i] == projects;
    return Ok(polishedProjects);
  }

  /** Projects without an overview come back as they were, and only they are left alone:
      every polished project has its overview replaced by a text. */
  lemma PolishKeepsOrder(projects: seq<Project>, modelName: string, s: Settings, i: nat)
    requires i < |projects| && PolishedProjects(projects, modelName, s).Ok?
    ensures var out := PolishedProjects(projects, modelName, s).value;
      (!Py.Truthy(projects[i][F.ProjectOverview]) ==> out[i] == projects[i])
      && (Py.Truthy(projects[i][F.ProjectOverview]) ==>
            out[i][F.ProjectOverview].Str? && out[i][F.ProjectName] == projects[i][F.ProjectName])
  {
    var provider := Clients.GetLlmClient(modelName).value;
    var out := PolishedProjects(projects, modelName, s).value;
    assert PolishOne(projects[i], provider, s) == Ok(out[i]);
  }

  /** With no persona the hint is empty and the prompt carries none. */
  lemma NoPersonaNoHint(p: Project, provider: Clients.Provider, s: Settings)
    requires s.persona == Null
    ensures Ask(p, provider, s) ==
              var prompt := s.render(PromptFor(p[F.ProjectOverview], LanguageFromLocale(s.locale), s.role, Null));
              if prompt.Err? then Err(prompt.error) else Ok(Invoke(provider, s, prompt.value))
  {
  }

  /** An OpenAI or Zhipu reply that opens with a closed think span followed by plain text
      is polished to that text alone when the original mentions no GitHub link. */
  lemma ThinkSpanDropped(p: Project, provider: Clients.Provider, s: Settings, b: string, c: string)
    requires provider != Clients.Ollama && p[F.ProjectOverview].Str? && p[F.ProjectOverview].s != ""
    requires !Text.Contains(p[F.ProjectOverview].s, "github.com")
    requires Text.IndexOf(b + Clients.Close + c, Clients.Close) == Text.Found(|b|)
    requires !Text.Contains(c, Clients.Open)
    requires Ask(p, provider, s).Ok?
    requires forall prompt :: s.model(provider, prompt) == Replied(Clients.Open + b + Clients.Close + c)
    ensures PolishOne(p, provider, s).Ok?
    ensures PolishOne(p, provider, s).value[F.ProjectOverview] == Str(Text.Strip(c))
  {
    var content := Clients.Open + b + Clients.Close + c;
    var once := Text.Strip(c);
    assert Clients.Respond(provider, content) == once by {
      Clients.RemoveSpansCutsSpan(b, c);
      Clients.RemoveSpansNoOpen(c);
    }
    assert Text.Strip(once) == once by {
      Text.StripShape(c);
      Text.StripUnpadded(once);
    }
    var asked := Ask(p, provider, s);
    assert asked == Ok(Replied(once)) by {
      var language := LanguageFromLocale(s.locale);
      var hint := PersonaHint(s.persona, language);
      var prompt := s.render(PromptFor(p[F.ProjectOverview], language, s.role, hint.value));
      assert asked == Ok(Invoke(provider, s, prompt.value));
    }
    assert KeepGithubLink(p[F.ProjectOverview], once, s.githubLink) == Ok(once);
  }
}
