# Résumé document core, modelled in Dafny

This project models the core of a résumé generator. The generator loads résumé data (personal
information, skills, projects, work history) from YAML files, validates each project's enumerated
fields and builds the résumé records. It then:

- redacts project fields for a target role;
- picks the role a language model should write a project's overview for;
- has the model rewrite the overviews;
- translates project data field by field.

It also holds the generation settings, which merge a YAML config file with command-line values.

Python's dynamic values are modelled as one datatype, `Models.Value`. It covers None, str, bool,
int, list, a dict as an insertion-ordered list of entries, and instances of the three nested
dataclasses. A `Project` is a map that holds a value for every one of its 25 declared fields.
Python's behaviour on these values is written out in module `Py`:

- truthiness and `x or y`;
- `dict.get` (only on a dict) and `d[key]`;
- iteration;
- membership in a set, which hashes, so a list or dict raises;
- `in` on a string, list or dict;
- `d[key] = value`.

Each exception a core function can raise is a case of `Results.Error`, and each function returns
a `Result`. Loops that build a list and stop at the first exception are methods. Each such method
is proved equal to a function built on `Results.MapResult`.

The modules follow the source files:

- `RoleConfig` (role_config.py);
- `RoleFilter` (role_filter.py);
- `RoleResolver` (llm_role_resolver.py);
- `Models` and `Fields` (models.py);
- `Loader` (loader.py);
- `Config` (config.py);
- `Clients` (langchain_clients.py);
- `Polisher` (llm_polisher.py);
- `Translate` (translate_projects.py).

`Constants` holds the constants of constants.py that the core uses. `Text` holds the string
operations.

Parts of the world the core touches are parameters of the model:

- the file system and YAML parsing: a function from file name to parsed document;
- the prompt texts and the prompt loader: `Polisher.Settings.render`;
- the language model behind each client: `Polisher.Settings.model`;
- the GitHub-URL regex search: `Polisher.Settings.githubLink`;
- the translating client: `Translate.Translator`.

What the sources say, as the proofs make explicit:

- No entry of `ROLE_FILTERS` defines `field_visibility`, so `filter_resume` returns the résumé
  unchanged for every known role (`RoleFilter.FilterResumeIsIdentityForEveryRole`). The test
  file test_role_filter.py expects field visibility maps and an `ai_engineer` role that the
  configuration does not have. The model follows the configuration.
- `models.Project` declares 25 fields (models.py:73-97).
- The loader never sets `llm_primary_role` or `llm_secondary_roles`. Loaded projects therefore
  carry no role hints, and the resolver falls back to the global role
  (`Loader.LoadedProjectsHaveNoRoleHints`, `RoleResolver.NoHintsFallsBackToGlobal`).
- `get_llm_client` always passes the model name to the client. The Ollama constructor's default
  name "llama2" is never used, and as a model name it is rejected
  (`Clients.OllamaDefaultNameIsUnknown`).

## Model

| member | source | states |
|---|---|---|
| RoleConfig.RoleKeys | resume_docs/role_config.py:3-46 | the role keys are the keys of the table, in order |
| RoleConfig.LookupIn | resume_docs/role_config.py:3-46 | a lookup finds a policy exactly when the key is in the table, and the policy is stored under it |
| RoleConfig.Lookup | resume_docs/role_config.py:3-46 | `ROLE_FILTERS.get(role)` is present exactly for the configured keys |
| RoleConfig.RoleKeysAreTheFourRoles | resume_docs/role_config.py:4-34 | the keys are data_development, full_stack, ai_development and product_manager, in that order |
| RoleConfig.NoRoleDefinesFieldVisibility | resume_docs/role_config.py:3-46 | no role entry has a field_visibility map |
| RoleConfig.EveryRoleSortsByRelevanceThenTime | resume_docs/role_config.py:14-44 | every role's sort_by is "relevance_then_time" |
| RoleConfig.AiDevelopmentExcludesNothing | resume_docs/role_config.py:31 | ai_development has no exclusion rules |
| RoleFilter.FieldVisibility | resume_docs/role_filter.py:30-33 | an unknown role, or a role without a visibility entry, gets the empty map |
| RoleFilter.FieldVisibilityIsAlwaysEmpty | resume_docs/role_filter.py:30-33 | with the configured table every role gets the empty map |
| RoleFilter.FilterProjectFields | resume_docs/role_filter.py:39-58 | the loop over the dataclass fields builds exactly the redacted project |
| RoleFilter.Redacted | resume_docs/role_filter.py:43-58 | a shown field keeps its value and a hidden one gets its hidden value |
| RoleFilter.RedactedField | resume_docs/role_filter.py:43-56 | a field missing from the map, or mapped to true, keeps its value; a hidden field becomes `[]` if it is one of the eleven listed names and None otherwise |
| RoleFilter.ClearedFieldsAre | resume_docs/role_filter.py:49-53 | the eleven names are exactly these eleven fields |
| RoleFilter.OnlySecondaryRolesListHidesToNone | resume_docs/role_filter.py:49-56 | llm_secondary_roles is the only list-typed field that a hidden field turns into None |
| RoleFilter.RedactedWithEmptyMap | resume_docs/role_filter.py:43-58 | with an empty visibility map the rebuilt project equals the input |
| RoleFilter.RedactedIdempotent | resume_docs/role_filter.py:43-58 | redacting twice with the same map gives the same project as redacting once |
| RoleFilter.FilterProjects | resume_docs/role_filter.py:35-37 | the projects stay the same in number and order, each one redacted |
| RoleFilter.FilterResume | resume_docs/role_filter.py:14-28 | it fails exactly for an unknown role, with the role and the list of keys; otherwise personal info, skills and work are unchanged and every project is redacted by the role's map |
| RoleFilter.UnknownRoleMessage | resume_docs/role_filter.py:16-18 | the message starts with "Unknown role: " and the role asked for |
| RoleFilter.UnknownRoleMessageListsEveryRole | resume_docs/role_filter.py:16-18 | the unknown-role message names every configured role |
| RoleFilter.FilterResumeIsIdentityForEveryRole | resume_docs/role_filter.py:14-28 | for every known role the résumé comes back unchanged |
| RoleResolver.AllowedRoles | resume_docs/llm_role_resolver.py:19 | the allowed set holds exactly the role keys |
| RoleResolver.NormalizeGlobal | resume_docs/llm_role_resolver.py:22-23 | the global role is kept exactly when it is a configured role |
| RoleResolver.PrimaryHint | resume_docs/llm_role_resolver.py:25 | an unhashable primary role raises; otherwise the hint is present exactly when the value names a configured role, and it is that value |
| RoleResolver.FilterRoles | resume_docs/llm_role_resolver.py:26 | it fails exactly when an element is unhashable; the result holds exactly the configured roles among the elements |
| RoleResolver.ResolvePolishRole | resume_docs/llm_role_resolver.py:10-44 | it raises exactly when the primary role is unhashable, the secondary roles are not iterable or one of them is unhashable; the role returned is always configured, and it is the global role or the project's primary role; None is returned exactly when neither is valid; a valid global role the project names (as primary or as secondary) wins; a valid primary role wins over a valid global role the project names neither as primary nor as secondary, and is used when there is no valid global role |
| RoleResolver.PrimaryBeatsIncompatibleGlobal | resume_docs/llm_role_resolver.py:25-37 | whatever form the secondary roles take (None, a list, or any other iterable with hashable elements), a global role the project names neither as primary nor as secondary loses to the project's primary role |
| RoleResolver.NullSecondariesAreNoCandidates | resume_docs/llm_role_resolver.py:26 | `None or []` leaves nothing to iterate, so a redacted project's None secondary roles give no candidates |
| RoleResolver.NoHintsFallsBackToGlobal | resume_docs/llm_role_resolver.py:40-44 | a project without hints resolves to the valid global role or to None |
| Models.DefaultTimeframe | resume_docs/models.py:44-47 | `Timeframe()` has no label, start or end |
| Models.DefaultManagementScope | resume_docs/models.py:51-54 | `ManagementScope()` has no team size or budget level and no stakeholder tiers |
| Models.DefaultImpactMetrics | resume_docs/models.py:58-61 | `ImpactMetrics()` has three empty metric lists |
| Models.Grouped | resume_docs/models.py:63-68 | `grouped()` gives Business, Technical and Operational with their lists, in that order |
| Models.NewProject | resume_docs/models.py:72-97 | a project built from just a name holds that name and every other field at its default |
| Models.NewProjectDefaults | resume_docs/models.py:72-97 | the defaults: `[]` for lists, None for scalars, empty nested records, `{}` for team_info |
| Models.DefaultWorkSummary | resume_docs/models.py:114-116 | `WorkSummary()` has no experiences and no role responsibilities |
| Fields.OrderListsEveryField | resume_docs/models.py:72-97 | the field order contains every field |
| Fields.OrderIsDuplicateFree | resume_docs/models.py:72-97 | there are 25 fields, each listed once |
| Fields.Build | resume_docs/models.py:72-97 | a record built from a function holds that function's value in every field |
| Loader.DataSuffix | resume_docs/loader.py:24 | the suffix is "_en" exactly for "en-US" and empty otherwise |
| Loader.DataFile | resume_docs/loader.py:24-28 | en-US names the `_en` file of a stem, every other locale the plain one |
| Loader.DataFileNames | resume_docs/loader.py:24-28 | en-US reads the `_en` files and every other locale the unsuffixed ones |
| Loader.CheckOptional | resume_docs/loader.py:118-124 | a scalar passes exactly when it is empty or allowed; a rejected one raises ValueError naming the field and project, or TypeError when it is unhashable |
| Loader.CheckChoices | resume_docs/loader.py:125-130 | a list passes exactly when every element is allowed; the error is the one for the first rejected element |
| Loader.CheckChoicesFirstError | resume_docs/loader.py:125-130 | the first rejected element is the one reported |
| Loader.ItemsOf | resume_docs/loader.py:125 | iterating `raw.get(key, []) or []` needs `raw` to be a dict; a missing or empty value gives no elements; a given list gives its items |
| Loader.EnumCheck | resume_docs/loader.py:117-130 | validation passes exactly when the role perspective and budget level are empty or allowed, the scope is a mapping and every decision and focus element is allowed |
| Loader.ValidateProjectEnums | resume_docs/loader.py:117-130 | the method, with its loops, returns what the checks decide |
| Loader.CheckEach | resume_docs/loader.py:125-130 | one validation loop returns what the list check decides |
| Loader.EnumCheckAcceptsEmptyProject | resume_docs/loader.py:117-130 | a project that sets none of the checked fields passes |
| Loader.EnumCheckRejectsRolePerspective | resume_docs/loader.py:118-120 | a non-empty role perspective outside the allowed set is rejected first |
| Loader.EnumCheckRejectsBudgetLevel | resume_docs/loader.py:121-124 | once the role perspective passes, a non-empty budget level outside the allowed set is rejected |
| Loader.EnumCheckRejectsDecision | resume_docs/loader.py:125-127 | once the scalar checks pass, the first decision element outside the allowed set is rejected |
| Loader.EnumCheckRejectsFocus | resume_docs/loader.py:128-130 | once every earlier check passes, the first focus element outside the allowed set is rejected |
| Loader.KeywordArgs | resume_docs/loader.py:69-71 | a non-dict project raises AttributeError; a missing or empty nested record passes no arguments; a given mapping passes exactly its entries, and succeeds exactly when every key is a parameter of the record; any other truthy value raises TypeError |
| Loader.Param | resume_docs/loader.py:69-71 | a parameter is bound to the keyword argument of that name when one is passed, and takes its default otherwise |
| Loader.MakeTimeframe | resume_docs/loader.py:69 | label, start and end are each bound to the argument of that name, or None when it is not passed; with no arguments it is the default timeframe |
| Loader.MakeManagementScope | resume_docs/loader.py:70 | team_size and budget_level are bound to their arguments or None, stakeholder_tiers to its argument or `[]`; with no arguments it is the default scope |
| Loader.MakeImpactMetrics | resume_docs/loader.py:71 | each of the three metric lists is bound to its argument, or `[]` when it is not passed; with no arguments it is the default metrics |
| Loader.ListArg | resume_docs/loader.py:79-93 | the result is a list; a missing or empty value gives `[]`; a given list is kept |
| Loader.MappingArg | resume_docs/loader.py:94 | a non-dict project raises AttributeError; a missing or empty value gives `{}`; a given dict is kept as it is; any other truthy value raises |
| Loader.ArgOrderHas | resume_docs/loader.py:69-96 | every field has a place in the argument order |
| Loader.ArgOrderListsEveryField | resume_docs/loader.py:69-96 | the argument order covers every field |
| Loader.FieldArg | resume_docs/loader.py:69-96 | the two fields the call does not pass get their defaults; every argument the call does pass raises AttributeError on a non-dict project |
| Loader.BuildFrom | resume_docs/loader.py:69-96 | construction succeeds exactly when every argument can be evaluated; then each field holds its argument; otherwise the error is the first failing argument's, in evaluation order |
| Loader.BuildProject | resume_docs/loader.py:69-96 | the same, in the order the call evaluates its arguments |
| Loader.FieldArgOmitted | resume_docs/loader.py:72-96 | the two llm_* fields the call does not pass get None and `[]` |
| Loader.ParseProject | resume_docs/loader.py:67-97 | a validation error comes first; otherwise it is the constructed project; a parsed project passed validation and carries no role hints |
| Loader.DefaultByForm | resume_docs/loader.py:69-96 | each way of forming an argument gives the field's dataclass default for a missing value |
| Loader.FieldArgAbsent | resume_docs/loader.py:69-96 | a field missing from the raw project gets its default, and the name gets `""` |
| Loader.FieldArgNull | resume_docs/loader.py:69-96 | a field other than the name given as null gets its default |
| Loader.AbsentFieldDefaults | resume_docs/loader.py:69-96 | a field missing from a parsed project's raw data holds its default, and the name holds `""` |
| Loader.NullFieldDefaults | resume_docs/loader.py:69-96 | a field other than the name given as null holds its default |
| Loader.ListFieldKept | resume_docs/loader.py:79-93 | a list-typed field given as a list holds that list |
| Loader.ParsedProjects | resume_docs/loader.py:65-98 | it succeeds exactly when the project list can be iterated and every raw project parses; then every raw project is parsed, same count and order; a missing project list gives no projects; a null one raises TypeError; otherwise the error raised is the first failing project's |
| Loader.ParseProjects | resume_docs/loader.py:65-98 | the loop returns exactly the parsed project list, or the first error |
| Loader.ParseEducation | resume_docs/loader.py:42 | it succeeds exactly on a dict with a description, and keeps the description |
| Loader.ParseCertification | resume_docs/loader.py:43 | it succeeds exactly on a dict with a name; it keeps the name, and the url when one is given, None otherwise |
| Loader.ListedUnder | resume_docs/loader.py:42-43 | `data.get(key, [])` needs a dict; a missing key gives no elements; a list gives its items |
| Loader.ParsePersonal | resume_docs/loader.py:41-54 | it succeeds exactly when both lists can be iterated and every education entry and certification parses; education and certifications are parsed from their lists, in order; each scalar field holds the given value, or `""` for a missing name and None for the other missing fields |
| Loader.ParseSkillCategory | resume_docs/loader.py:59 | it succeeds exactly on a dict whose items can be iterated; it keeps the given category, or `""`; the items are the given list's elements, `[]` when missing; null items raise |
| Loader.ParseSkills | resume_docs/loader.py:57-62 | it succeeds exactly when the skills list can be iterated and every category parses; then the categories are parsed from it, same count and order |
| Loader.ParseExperience | resume_docs/loader.py:103-107 | it succeeds exactly on a dict; company, duration and title hold the given values, or `""`, None and None when missing |
| Loader.ParseRoleResponsibility | resume_docs/loader.py:111 | it succeeds exactly on a dict whose responsibilities are missing, empty or iterable; it keeps the given role, or `""`; the responsibilities are the given elements, `[]` when missing or null |
| Loader.ParseWork | resume_docs/loader.py:101-114 | it succeeds exactly when both lists can be iterated and every experience and role responsibility parses; then both are parsed from their lists, in order |
| Loader.ParseWorkKeepsExperiences | resume_docs/loader.py:101-114 | the number and order of experiences is kept, and a missing company becomes `""` |
| Loader.LoadResumeData | resume_docs/loader.py:22-38 | it succeeds exactly when all four parts parse, each from the locale's own data file, and then holds them; a personal-info error is raised first |
| Loader.LoadedProjectsHaveNoRoleHints | resume_docs/loader.py:72-96 | every loaded project has no primary role and no secondary roles |
| Config.Validate | resume_docs/config.py:30-34 | it passes exactly for a known template and a supported locale; an unhashable template raises TypeError, an unknown one "Unknown template", an unsupported locale "Unsupported locale" |
| Config.LoadConfigFile | resume_docs/config.py:37-47 | no path or a missing file gives `{}`; an empty document counts as `{}`; a non-mapping document raises |
| Config.Overridden | resume_docs/config.py:55 | the base keys are kept in place, one entry each, and each holds the override's value when the override has the key, else its own |
| Config.Added | resume_docs/config.py:55 | only keys the base lacks are added |
| Config.Merge | resume_docs/config.py:55 | the merged entries start with the base keys in their order |
| Config.FindOverridden | resume_docs/config.py:55 | a base key maps to the overriding value if there is one, else to its own value |
| Config.FindAdded | resume_docs/config.py:55 | a key the base lacks is found among the added entries exactly as in the override |
| Config.MergeFind | resume_docs/config.py:55 | in `{**base, **override}` a key maps to the override's value when it has one, else to the base's |
| Config.MergedSetting | resume_docs/config.py:55-67 | `merged.get(key, default)` is the command-line value, else the file value, else the default |
| Config.PathOf | resume_docs/config.py:62 | only a string is a path, and the path is that string |
| Config.CreateConfig | resume_docs/config.py:50-69 | a file error propagates; the config is created exactly when the models setting is iterable, the output directory is a string and validation passes; each setting is the command-line value, else the file's, else its default, with the flags passed through `bool` |
| Config.CreateConfigDefaults | resume_docs/config.py:56-67 | with no arguments and no file every setting is its default, and validation passes |
| Config.CliTemplateWins | resume_docs/config.py:55 | a command-line template overrides the config file's |
| Clients.GetLlmClient | resume_docs/langchain_clients.py:96-107 | the lower-cased name selects OpenAI, else Zhipu, else Ollama by its markers, tried in that order; a name without any marker raises "Unknown model" |
| Clients.CaseDoesNotMatter | resume_docs/langchain_clients.py:98 | a name and its lower-cased form select the same client |
| Clients.OpenAIDefaultName | resume_docs/langchain_clients.py:21 | OpenAI's default name selects OpenAI |
| Clients.ZhipuDefaultName | resume_docs/langchain_clients.py:51 | Zhipu's default name selects Zhipu |
| Clients.OllamaDefaultNameIsUnknown | resume_docs/langchain_clients.py:81 | Ollama's default name "llama2" is not a known model name |
| Clients.OpenAIMarkersComeFirst | resume_docs/langchain_clients.py:100-107 | any name whose lower-cased form has an OpenAI marker selects OpenAI, even when it also has a Zhipu or Ollama marker |
| Clients.GlmO1SelectsOpenAI | resume_docs/langchain_clients.py:100-103 | "glm-o1" carries a Zhipu marker and still selects OpenAI |
| Clients.RemoveSpans | resume_docs/langchain_clients.py:45 | removing spans never lengthens the text |
| Clients.RemoveThinkTags | resume_docs/langchain_clients.py:42-45 | the result is no longer than the text and has no whitespace at either end |
| Clients.RemoveThinkTagsWithoutSpan | resume_docs/langchain_clients.py:42-45 | text without an opening tag, or without a closing tag, is only stripped |
| Clients.RemoveSpansNoOpen | resume_docs/langchain_clients.py:45 | text without an opening tag is unchanged |
| Clients.RemoveSpansUnclosed | resume_docs/langchain_clients.py:45 | text without a closing tag is unchanged, even if it has an opening tag |
| Clients.RemoveSpansPlainPrefix | resume_docs/langchain_clients.py:45 | text without '<' is copied and scanning resumes after it |
| Clients.RemoveSpansCutsSpan | resume_docs/langchain_clients.py:45 | an opening tag, a body and the first closing tag after the opening tag are removed whole, and scanning resumes after that closing tag |
| Clients.RemoveSpansAtSpan | resume_docs/langchain_clients.py:45 | at an opening tag, the text up to and including the first closing tag after it is dropped |
| Clients.FirstCloseAfterPlain | resume_docs/langchain_clients.py:45 | in a body without '<', the first closing tag is the one right after the body |
| Clients.RemoveSpansCutsFirstSpan | resume_docs/langchain_clients.py:45 | after a prefix without '<', a span is cut out up to the first closing tag after its opening tag and the rest is scanned |
| Clients.Respond | resume_docs/langchain_clients.py:34-45 | OpenAI and Zhipu remove think spans and strip; Ollama returns the text as it came |
| Text.StripShape | resume_docs/langchain_clients.py:45 | `strip()` leaves a slice of the input, with only whitespace cut on either side and no whitespace at either end |
| Text.Strip | resume_docs/langchain_clients.py:45 | `strip()` never lengthens the text and leaves no whitespace at either end |
| Text.TrimStartShape | resume_docs/langchain_clients.py:45 | the leading-whitespace cut of `strip()` leaves a suffix of the input, removes only whitespace and stops at a non-space character |
| Text.TrimEndShape | resume_docs/langchain_clients.py:45 | the trailing-whitespace cut of `strip()` leaves a prefix of the input, removes only whitespace and stops at a non-space character |
| Text.StripUnpadded | resume_docs/llm_polisher.py:94 | stripping text without whitespace at either end leaves it unchanged |
| Text.Lower | resume_docs/langchain_clients.py:98 | lower-casing keeps the length |
| Text.LowerIdempotent | resume_docs/langchain_clients.py:98 | lower-casing twice is lower-casing once |
| Text.JoinContainsItems | resume_docs/role_filter.py:16-18 | a joined list contains each of its items |
| Results.MapResult | resume_docs/llm_polisher.py:40-44 | mapping a raising function over a list succeeds exactly when every call succeeds, giving every result in order; otherwise it gives the first error |
| Py.Truthy | resume_docs/loader.py:119 | a value is falsy exactly when it is None, False, zero, or the empty string, list or dict |
| Py.Or | resume_docs/llm_polisher.py:236 | `x or y` is `x` when it is truthy and `y` otherwise |
| Py.Find | resume_docs/loader.py:42 | a key is found exactly when the dict has it, with the value of its first entry |
| Py.Lookup | resume_docs/loader.py:45 | `d.get(key, default)` is the stored value, or the default for a missing key |
| Py.Get | resume_docs/llm_polisher.py:234 | `.get` works only on a dict; on anything else it raises AttributeError |
| Py.Subscript | resume_docs/loader.py:42 | `d[key]` succeeds exactly on a dict with that key; a missing key raises KeyError |
| Py.Iterate | resume_docs/loader.py:125 | lists, strings and dicts are iterable (items, characters, keys), nothing else is |
| Py.Member | resume_docs/loader.py:119 | set membership raises on an unhashable value, and is otherwise true exactly for an allowed string |
| Py.In | resume_docs/llm_polisher.py:97 | `in` is a substring test on a string, element membership on a list, a key test on a dict, and raises otherwise |
| Py.Assign | scripts/translate_projects.py:67 | `d[key] = value` keeps the keys in place when the key exists, and appends the pair otherwise |
| Py.AssignFind | scripts/translate_projects.py:67 | after the assignment the key maps to the new value and every other key to its old one |
| Polisher.LanguageFromLocale | resume_docs/llm_polisher.py:210-224 | a locale is Chinese exactly when it starts with "zh" |
| Polisher.PersonaHint | resume_docs/llm_polisher.py:226-236 | no persona gives no hint; otherwise the language's instructions, or the default ones when those are empty; a non-dict persona or instructions raises |
| Polisher.PromptFor | resume_docs/llm_polisher.py:75-83 | the role-aware prompt is built exactly for a non-empty role, from the overview, language and hint |
| Polisher.Invoke | resume_docs/llm_polisher.py:86 | the client's reply is its model's reply post-processed by the client; a raised exception passes through |
| Polisher.KeepGithubLink | resume_docs/llm_polisher.py:96-98 | the polished text is kept when the original has no github.com or the text already has one; otherwise the extracted link is appended on its own line; the result starts with the text; a non-string original mentioning github.com raises |
| Polisher.Polished | resume_docs/llm_polisher.py:93-109 | the copy has the new overview, the six narrative lists empty, the metrics reset and every other field unchanged |
| Polisher.Ask | resume_docs/llm_polisher.py:71-90 | a persona error, then a prompt error, propagates; otherwise it is the client's reply to the rendered prompt |
| Polisher.PolishOne | resume_docs/llm_polisher.py:48-111 | a project without an overview is returned as it is; a model exception becomes "Failed to polish project" with the project name; otherwise the project is polished to the stripped reply with the GitHub link kept, and an error from the link check passes through unchanged |
| Polisher.PolishSingleProject | resume_docs/llm_polisher.py:48-111 | the step-by-step method returns exactly what the polish step specifies |
| Polisher.CopyPolished | resume_docs/llm_polisher.py:93-109 | the field-by-field assignments on the copy give the polished project |
| Polisher.PolishedProjects | resume_docs/llm_polisher.py:14-46 | an unknown model name raises; otherwise it succeeds exactly when every project polishes, giving them in order, and a failure raises the error of the first failing project (for a model exception, "Failed to polish project" with its name) |
| Polisher.PolishProjects | resume_docs/llm_polisher.py:37-46 | the loop returns exactly the polished project list, or the first error |
| Polisher.PolishKeepsOrder | resume_docs/llm_polisher.py:37-46 | a project without an overview comes back unchanged; every other one gets a text overview and keeps its name |
| Polisher.NoPersonaNoHint | resume_docs/llm_polisher.py:231-232 | with no persona the prompt carries no hint |
| Polisher.ThinkSpanDropped | resume_docs/llm_polisher.py:86-100 | an OpenAI or Zhipu reply that opens with a think span, closed by its first closing tag, gives an overview of only the stripped text after it |
| Translate.TranslateField | scripts/translate_projects.py:21-32 | a non-string or empty value is returned as it is; a non-empty string becomes the stripped translation, or the client's error |
| Translate.TranslateValue | scripts/translate_projects.py:35-44 | a string goes through `translate_field`; a value that is not a string, list or dict is returned as it is; a translated list or dict keeps its length |
| Translate.TranslateValueCorrect | scripts/translate_projects.py:35-44 | translation raises exactly when the client fails on a non-empty text inside the value; otherwise every text is replaced by its translation, lists element by element, dicts key by key in order, and every other value is kept |
| Translate.TranslateItemsCorrect | scripts/translate_projects.py:39-40 | the list comprehension raises exactly when an element fails, and otherwise translates each element in its place |
| Translate.TranslateEntriesCorrect | scripts/translate_projects.py:41-42 | the dict comprehension raises exactly when a value fails, and otherwise keeps each key in its place with its value translated |
| Translate.NoTextUnchanged | scripts/translate_projects.py:35-44 | a value without non-empty text is returned unchanged, whatever the client |
| Translate.NoTextItems | scripts/translate_projects.py:39-40 | list elements without text come back unchanged |
| Translate.NoTextEntries | scripts/translate_projects.py:41-42 | dict entries without text come back unchanged |
| Translate.Copy | scripts/translate_projects.py:65 | `.copy()` exists only on dicts and lists, and gives an equal value |
| Translate.TranslateTimeframe | scripts/translate_projects.py:63-68 | an empty timeframe becomes `{}`; a dict's truthy label is replaced by its translation; all else is kept; non-containers raise AttributeError, and a list containing "label" raises TypeError |
| Translate.TimeframeOnlyLabel | scripts/translate_projects.py:65-67 | the timeframe keeps its keys in place, and every key but label keeps its value |
| Translate.TranslateEntry | scripts/translate_projects.py:57-70 | the key is kept; preserved fields and management_scope are copied; timeframe gets its own rule; everything else is translated recursively |
| Translate.TranslatedProject | scripts/translate_projects.py:47-72 | a non-dict raises; otherwise it succeeds exactly when every entry translates, giving the entries in order, and a failure raises the first failing entry's error |
| Translate.TranslateProject | scripts/translate_projects.py:56-72 | the loop returns exactly the translated project, or the first error |
| Translate.PreservedUntouched | scripts/translate_projects.py:58-62 | preserved fields and management_scope come back identical |
| Translate.TranslatedOutsidePreserved | scripts/translate_projects.py:69-70 | every field that is neither preserved nor management_scope nor timeframe comes back translated |

## Left out

- File reading and YAML parsing (`_read_yaml`, `yaml.safe_load`, `Path.exists`): the model receives the parsed documents through a `read` function.
- The base directory default of `load_resume_data` (`constants.LATEST_RESUMES_DIR`): the directory is part of `read`.
- The prompt texts of `_build_polish_prompt` and of the prompt loader's role-aware prompt: the model keeps only which prompt is asked for and with what arguments, and rendering is a parameter that may fail.
- The regular expression of `_extract_github_link`: the link extracted is a parameter.
- The client constructors: their API-key checks and the LangChain objects (langchain_clients.py:21-32, 51-62, 81-88) touch the environment and external libraries. The model starts from the chosen provider.
- The network call of each client: the reply is a parameter.
- Clients.RemoveSpans: written as a scan, not by calling a regex engine; the lemmas pin down the behaviour of `.*?` with DOTALL for the shapes they name.
- Text.Lower: lower-cases ASCII letters only; Python's Unicode case mapping is not modelled.
- The `translate_projects` driver (translate_projects.py:75-121): it does file I/O, printing and timestamps.
- The loading of runtime_config.py, and the files cli.py, docx_renderer.py, prompt_loader.py and generate_prompts.py, and the model_clients package: they are not part of this model.
- The include/exclude project rules and sort key of the role table: nothing in the core applies them, so they are kept as data only.
- Object identity and aliasing: projects and dicts are values, so the model does not capture that `dataclasses.replace` and `dict.copy` are shallow copies. The inputs are never changed in place, by construction.
- Loader.MappingArg: any truthy value other than a dict raises TypeError in the model. Python's `dict(...)` builds a dict from a list of pairs, and raises ValueError rather than TypeError for a non-empty string.
- Constants.DefaultOutputDir: the repository root (`REPO_ROOT`, constants.py:8) is not modelled. The default "docs/output" stands for the absolute path `REPO_ROOT/docs/output`, so the model cannot tell the default from an explicit relative "docs/output" resolved against another working directory. The other path constants built on `REPO_ROOT` are outside the model.
- Config.PathOf: only a string is accepted as a path, and the path is the raw string. `os.PathLike` objects and bytes are not modelled, nor is the normalisation `Path` applies (`Path("")` is ".", "a//b" is "a/b").
- Floating-point values are not modelled: YAML floats are not part of `Models.Value`.
- Dict keys are strings only, and YAML timestamps (which `yaml.safe_load` turns into `datetime.date` objects) are not part of `Models.Value`.
- Every dict is an entry list assumed to have distinct keys, as a Python dict does; nothing in the model enforces it. `Py.Find` reads and `Py.Assign` updates the first entry with a key, whereas a YAML mapping that repeats a key keeps its last value. `Py.Find`, `Py.Assign`, `Py.Given`, `Py.Lookup`, `Config.Merge`, the `Loader` parsers that read fields through `Given`, `Translate.TranslateEntriesCorrect` and `Translate.TranslateTimeframe` match Python only on such lists. Those that rebuild a dict keep the order of its entries.
- `ResumeDocument.to_dict` (models.py:126-127): a generic `asdict` conversion, used outside the core.
