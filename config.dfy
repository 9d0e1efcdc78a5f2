/** resume_docs/config.py: the generation settings, merged from an optional YAML file and
    the command-line values, defaulted and then validated. Reading the file is a parameter. */
module Config {
  import opened Models
  import opened Results
  import opened Constants
  import Py

  /** A Python dict with string keys, in insertion order. */
  type Entries = seq<(string, Value)>

  /** `GenerationConfig`. A setting copied from the merged mapping keeps whatever value it
      held; `bool(...)`, `list(...)` and `Path(...)` give the flags, the model list and the
      output directory. */
  datatype GenerationConfig = GenerationConfig(
    template: Value,
    locale: Value,
    includeContact: bool,
    models: seq<Value>,
    promptUseCase: Value,
    outputDir: string,
    dryRun: bool,
    skipDocx: bool,
    skipPrompts: bool,
    invokeModels: bool)

  /** The template accepted by `validate`: a key of `THEMES`. */
  predicate KnownTemplate(v: Value) {
    v.Str? && v.s in ThemeKeys
  }

  /** The locale accepted by `validate`: one of `SUPPORTED_LOCALES`. */
  predicate SupportedLocale(v: Value) {
    v.Str? && v.s in SupportedLocales
  }

  /** `GenerationConfig.validate`: the template is looked up in the `THEMES` dict (which
      hashes it), then the locale in the `SUPPORTED_LOCALES` tuple (compared by equality). */
  function Validate(c: GenerationConfig): (r: Result<()>)
    ensures r.Ok? <==> KnownTemplate(c.template) && SupportedLocale(c.locale)
    ensures !Py.Hashable(c.template) ==> r == Err(TypeError("unhashable type"))
    ensures Py.Hashable(c.template) && !KnownTemplate(c.template) ==> r == Err(UnknownTemplate(c.template))
    ensures KnownTemplate(c.template) && !SupportedLocale(c.locale) ==> r == Err(UnsupportedLocale(c.locale))
  {
    var known :- Py.Member(c.template, set k | k in ThemeKeys);
    if !known then Err(UnknownTemplate(c.template))
    else if !SupportedLocale(c.locale) then Err(UnsupportedLocale(c.locale))
    else Ok(())
  }

  /** `load_config_file`. `read(path)` is the parsed YAML document of an existing file and
      None for a missing one; an empty document counts as `{}`. */
  function LoadConfigFile(path: Option<string>, read: string -> Option<Value>): (r: Result<Entries>)
    ensures path.None? ==> r == Ok([])
    ensures path.Some? && read(path.value).None? ==> r == Ok([])
    ensures path.Some? && read(path.value).Some? ==>
              var data := Py.Or(read(path.value).value, Dict([]));
              (data.Dict? ==> r == Ok(data.entries)) && (!data.Dict? ==> r == Err(NotAMapping(path.value)))
  {
    match path
    case None => Ok([])
    case Some(p) =>
      match read(p)
      case None => Ok([])
      case Some(doc) =>
        var data := Py.Or(doc, Dict([]));
        if data.Dict? then Ok(data.entries) else Err(NotAMapping(p))
  }

  /** The base entries, each with the overriding value when `override` has its key. */
  function Overridden(base: Entries, override: Entries): (r: Entries)
    ensures |r| == |base|
    ensures forall i | 0 <= i < |r| :: r[i].0 == base[i].0 && Py.Given(override, base[i].0, base[i].1, r[i].1)
    decreases |base|
  {
    if |base| == 0 then []
    else
      var rest := Overridden(base[1..], override);
      var r := [(base[0].0, Py.Lookup(override, base[0].0, base[0].1))] + rest;
      assert forall i | 1 <= i < |r| :: r[i] == rest[i - 1] && base[i] == base[1..][i - 1];
      r
  }

  /** The entries of `override` whose keys `base` lacks, in order. */
  function Added(base: Entries, override: Entries): (r: Entries)
    ensures forall i | 0 <= i < |r| :: !Py.HasKey(base, r[i].0)
    decreases |override|
  {
    if |override| == 0 then []
    else (if Py.HasKey(base, override[0].0) then [] else [override[0]]) + Added(base, override[1..])
  }

  /** `{**base, **override}`: the keys of `base` in order, overridden where `override` has
      them, then the new keys of `override`. */
  function Merge(base: Entries, override: Entries): (r: Entries)
    ensures |r| >= |base|
    ensures forall i | 0 <= i < |base| :: r[i].0 == base[i].0
  {
    var front := Overridden(base, override);
    var r := front + Added(base, override);
    assert forall i | 0 <= i < |base| :: r[i] == front[i];
    r
  }

  lemma {:induction false} FindOverridden(base: Entries, override: Entries, k: string)
    ensures Py.HasKey(base, k) ==>
              Py.Find(Overridden(base, override), k) == Some(Py.Lookup(override, k, Py.Find(base, k).value))
    ensures !Py.HasKey(base, k) ==> Py.Find(Overridden(base, override), k) == None
    decreases |base|
  {
    if |base| > 0 && base[0].0 != k {
      FindOverridden(base[1..], override, k);
      Py.HasKeyOfTail(base, k);
      var o := Overridden(base, override);
      assert o[1..] == Overridden(base[1..], override);
      Py.HasKeyOfTail(o, k);
    }
  }

  lemma {:induction false} FindAdded(base: Entries, override: Entries, k: string)
    requires !Py.HasKey(base, k)
    ensures Py.Find(Added(base, override), k) == Py.Find(override, k)
    decreases |override|
  {
    if |override| > 0 {
      FindAdded(base, override[1..], k);
      var head: Entries := if Py.HasKey(base, override[0].0) then [] else [override[0]];
      Py.FindConcat(head, Added(base, override[1..]), k);
      if override[0].0 != k {
        Py.HasKeyOfTail(override, k);
      }
    }
  }

  /** A key of the merged dict maps to the overriding value when there is one, and to the
      base value otherwise. */
  lemma MergeFind(base: Entries, override: Entries, k: string)
    ensures Py.Find(Merge(base, override), k) ==
              if Py.HasKey(override, k) then Py.Find(override, k) else Py.Find(base, k)
  {
    FindOverridden(base, override, k);
    Py.FindConcat(Overridden(base, override), Added(base, override), k);
    if !Py.HasKey(base, k) {
      FindAdded(base, override, k);
    }
  }

  /** The value a setting takes: the command line's, else the config file's, else the default. */
  function Setting(cli: Entries, file: Entries, key: string, default: Value): Value {
    if Py.HasKey(cli, key) then Py.Find(cli, key).value
    else if Py.HasKey(file, key) then Py.Find(file, key).value
    else default
  }

  /** `merged.get(key, default)` on the merged dict is the setting the precedence rule picks. */
  lemma MergedSetting(cli: Entries, file: Entries, key: string, default: Value)
    ensures Py.Lookup(Merge(file, cli), key, default) == Setting(cli, file, key, default)
  {
    MergeFind(file, cli, key);
  }

  /** `Path(value)`; only a string is modelled as a path. */
  function PathOf(v: Value): (r: Result<string>)
    ensures r.Ok? <==> v.Str?
    ensures r.Ok? ==> r.value == v.s
  {
    if v.Str? then Ok(v.s) else Err(TypeError("expected str, bytes or os.PathLike object"))
  }

  /** `create_config`: the file's mapping, overridden by `cli_args or {}`; every setting
      absent from both takes its default; the result is validated. */
  function CreateConfig(cliArgs: Option<Entries>, path: Option<string>, read: string -> Option<Value>)
    : (r: Result<GenerationConfig>)
    ensures LoadConfigFile(path, read).Err? ==> r == Err(LoadConfigFile(path, read).error)
    ensures r.Ok? ==> KnownTemplate(r.value.template) && SupportedLocale(r.value.locale)
    ensures LoadConfigFile(path, read).Ok? ==>
              var cli := cliArgs.GetOr([]);
              var file := LoadConfigFile(path, read).value;
              (r.Ok? <==>
                 Py.Iterate(Setting(cli, file, "models", List([]))).Ok?
                 && Setting(cli, file, "output_dir", Str(DefaultOutputDir)).Str?
                 && KnownTemplate(Setting(cli, file, "template", Str(DefaultTheme)))
                 && SupportedLocale(Setting(cli, file, "locale", Str(DefaultLocale))))
              && (r.Ok? ==>
                 r.value.template == Setting(cli, file, "template", Str(DefaultTheme))
                 && r.value.locale == Setting(cli, file, "locale", Str(DefaultLocale))
                 && r.value.includeContact == Py.Truthy(Setting(cli, file, "include_contact", Bool(false)))
                 && Py.Iterate(Setting(cli, file, "models", List([]))) == Ok(r.value.models)
                 && r.value.promptUseCase == Setting(cli, file, "prompt_use_case", Str(DefaultUseCase))
                 && Setting(cli, file, "output_dir", Str(DefaultOutputDir)) == Str(r.value.outputDir)
                 && r.value.dryRun == Py.Truthy(Setting(cli, file, "dry_run", Bool(false)))
                 && r.value.skipDocx == Py.Truthy(Setting(cli, file, "skip_docx", Bool(false)))
                 && r.value.skipPrompts == Py.Truthy(Setting(cli, file, "skip_prompts", Bool(false)))
                 && r.value.invokeModels == Py.Truthy(Setting(cli, file, "invoke_models", Bool(false))))
  {
    var base :- LoadConfigFile(path, read);
    var merged := Merge(base, cliArgs.GetOr([]));
    var cli := cliArgs.GetOr([]);
    MergedSetting(cli, base, "template", Str(DefaultTheme));
    MergedSetting(cli, base, "locale", Str(DefaultLocale));
    MergedSetting(cli, base, "include_contact", Bool(false));
    MergedSetting(cli, base, "models", List([]));
    MergedSetting(cli, base, "prompt_use_case", Str(DefaultUseCase));
    MergedSetting(cli, base, "output_dir", Str(DefaultOutputDir));
    MergedSetting(cli, base, "dry_run", Bool(false));
    MergedSetting(cli, base, "skip_docx", Bool(false));
    MergedSetting(cli, base, "skip_prompts", Bool(false));
    MergedSetting(cli, base, "invoke_models", Bool(false));
    var models :- Py.Iterate(Py.Lookup(merged, "models", List([])));
    var outputDir :- PathOf(Py.Lookup(merged, "output_dir", Str(DefaultOutputDir)));
    var config := GenerationConfig(
      Py.Lookup(merged, "template", Str(DefaultTheme)),
      Py.Lookup(merged, "locale", Str(DefaultLocale)),
      Py.Truthy(Py.Lookup(merged, "include_contact", Bool(false))),
      models,
      Py.Lookup(merged, "prompt_use_case", Str(DefaultUseCase)),
      outputDir,
      Py.Truthy(Py.Lookup(merged, "dry_run", Bool(false))),
      Py.Truthy(Py.Lookup(merged, "skip_docx", Bool(false))),
      Py.Truthy(Py.Lookup(merged, "skip_prompts", Bool(false))),
      Py.Truthy(Py.Lookup(merged, "invoke_models", Bool(false))));
    var _ :- Validate(config);
    Ok(config)
  }

  /** With no command-line values and no config file every setting is its default. */
  lemma CreateConfigDefaults(read: string -> Option<Value>)
    ensures var r := CreateConfig(None, None, read);
      r.Ok? && r.value.template == Str("modern") && r.value.locale == Str("zh-CN")
      && !r.value.includeContact && r.value.models == [] && r.value.promptUseCase == Str("summary")
      && r.value.outputDir == DefaultOutputDir
      && !r.value.dryRun && !r.value.skipDocx && !r.value.skipPrompts && !r.value.invokeModels
  {
  }

  /** A command-line template overrides the config file's. */
  lemma {:induction false} CliTemplateWins(cli: Entries, path: Option<string>, read: string -> Option<Value>)
    requires CreateConfig(Some(cli), path, read).Ok?
    requires Py.HasKey(cli, "template")
    ensures CreateConfig(Some(cli), path, read).value.template == Py.Find(cli, "template").value
  {
    assert LoadConfigFile(path, read).Ok?;
  }
}
