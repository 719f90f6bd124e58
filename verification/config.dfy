/** Startup configuration of an interactive session (the top of
    `run_interactive`, microcode/main.py): every setting is taken from the
    first source that provides it, in the order override, environment,
    settings cache, default. */
module Config {
  import opened Wrappers
  import opened Values
  import opened Strings

  /** `read_int_env`: unset or not a decimal integer reads as `None`. */
  function ReadIntEnv(env: Env, name: string): (r: Option<int>)
    ensures name !in env ==> r.None?
    ensures r.Some? <==> name in env && IsDecimal(env[name])
    ensures r.Some? ==> r == ParseInt(env[name])
  {
    match Lookup(env, name)
    case None => None
    case Some(value) => ParseInt(value)
  }

  /** What the CLI writes with `str(n)` reads back as `n`, negatives too. */
  lemma ReadIntEnvRoundTrip(env: Env, name: string, n: int)
    requires name in env
    requires env[name] == (if n >= 0 then NatToString(n) else "-" + NatToString(-n))
    ensures ReadIntEnv(env, name) == Some(n)
  {
    if n >= 0 {
      ParseNatToString(n);
    } else {
      ParseNatToString(-n);
    }
  }

  /** The keyword arguments of `run_interactive`; `None` means "not given". */
  datatype Overrides = Overrides(
    model: Option<string>, subLm: Option<string>, apiKey: Option<string>,
    maxIterations: Option<int>, maxTokens: Option<int>, maxOutputChars: Option<int>,
    apiBase: Option<string>, verbose: Option<bool>, env: Option<string>)

  /** The values `run_interactive` has settled on by line 281. Limits and
      the API base keep the scalar type they came with, since a cached value
      is passed on unchecked. */
  datatype Settings = Settings(
    model: Option<string>, subLm: Option<string>, envTag: Option<string>, verbose: bool,
    maxIters: Option<Scalar>, maxTokens: Option<Scalar>, maxOutputChars: Option<Scalar>,
    apiBase: Option<Scalar>)

  function IntScalar(o: Option<int>): (r: Option<Scalar>)
    ensures r.Some? <==> o.Some?
    ensures r.Some? ==> r.value == SInt(o.value)
  {
    match o
    case None => None
    case Some(i) => Some(SInt(i))
  }

  function StrScalar(o: Option<string>): (r: Option<Scalar>)
    ensures r.Some? <==> o.Some?
    ensures r.Some? ==> r.value == SStr(o.value)
  {
    match o
    case None => None
    case Some(s) => Some(SStr(s))
  }

  /** One numeric limit: the override, else the environment variable if it
      parses, else the cached value (a JSON `null` counts as absent). */
  function ResolveLimit(override: Option<int>, env: Env, envName: string, cache: Dict, key: string)
    : (r: Option<Scalar>)
    ensures override.Some? ==> r == Some(SInt(override.value))
    ensures override.None? && ReadIntEnv(env, envName).Some? ==> r == Some(SInt(ReadIntEnv(env, envName).value))
    ensures override.None? && ReadIntEnv(env, envName).None? ==> r == Get(cache, key)
  {
    if override.Some? then IntScalar(override)
    else
      var fromEnv := ReadIntEnv(env, envName);
      if fromEnv.Some? then IntScalar(fromEnv) else Get(cache, key)
  }

  /** `verbose`: the override; else `MICROCODE_VERBOSE == "1"` when that is
      set at all; else the truthiness of a cached `verbose` entry (even a
      `null` one); else false. */
  function ResolveVerbose(override: Option<bool>, env: Env, cache: Dict): (r: bool)
  {
    if override.Some? then override.value
    else if "MICROCODE_VERBOSE" in env then env["MICROCODE_VERBOSE"] == "1"
    else if "verbose" in cache then Truthy(cache["verbose"])
    else false
  }

  /** `os.getenv("MODAIC_ENV") or os.getenv("MICROCODE_ENV")` unless given. */
  function ResolveEnvTag(override: Option<string>, env: Env): (r: Option<string>)
    ensures override.Some? ==> r == override
    ensures override.None? && EnvTruthy(env, "MODAIC_ENV") ==> r == Some(env["MODAIC_ENV"])
    ensures override.None? && !EnvTruthy(env, "MODAIC_ENV") ==> r == Lookup(env, "MICROCODE_ENV")
  {
    if override.Some? then override
    else
      var modaic := NonEmpty(Lookup(env, "MODAIC_ENV"));
      if modaic.Some? then modaic else Lookup(env, "MICROCODE_ENV")
  }

  /** Lines 251-281 of `run_interactive`. */
  function ResolveSettings(o: Overrides, env: Env, cache: Dict): (s: Settings)
    ensures s.maxIters == ResolveLimit(o.maxIterations, env, "MICROCODE_MAX_ITERATIONS", cache, "max_iters")
    ensures s.maxTokens == ResolveLimit(o.maxTokens, env, "MICROCODE_MAX_TOKENS", cache, "max_tokens")
    ensures s.maxOutputChars == ResolveLimit(o.maxOutputChars, env, "MICROCODE_MAX_OUTPUT_CHARS", cache, "max_output_chars")
  {
    Settings(
      model := if o.model.Some? then o.model else Lookup(env, "MICROCODE_MODEL"),
      subLm := if o.subLm.Some? then o.subLm else Lookup(env, "MICROCODE_SUB_LM"),
      envTag := ResolveEnvTag(o.env, env),
      verbose := ResolveVerbose(o.verbose, env, cache),
      maxIters := ResolveLimit(o.maxIterations, env, "MICROCODE_MAX_ITERATIONS", cache, "max_iters"),
      maxTokens := ResolveLimit(o.maxTokens, env, "MICROCODE_MAX_TOKENS", cache, "max_tokens"),
      maxOutputChars := ResolveLimit(o.maxOutputChars, env, "MICROCODE_MAX_OUTPUT_CHARS", cache, "max_output_chars"),
      apiBase := if o.apiBase.Some? then StrScalar(o.apiBase)
                 else if "MICROCODE_API_BASE" in env then Some(SStr(env["MICROCODE_API_BASE"]))
                 else Get(cache, "api_base"))
  }

  /** A limit is the first source of its chain that provides a value; the
      environment variable counts only when it parses. */
  lemma LimitPrecedence(override: Option<int>, env: Env, envName: string, cache: Dict, key: string)
    ensures ResolveLimit(override, env, envName, cache, key)
              == FirstSome([IntScalar(override), IntScalar(ReadIntEnv(env, envName)), Get(cache, key)])
  {
    FirstSomeOfThree(IntScalar(override), IntScalar(ReadIntEnv(env, envName)), Get(cache, key));
  }

  /** The models and the environment tag, likewise: `MODAIC_ENV` counts
      only when non-empty, `MICROCODE_ENV` even when empty. */
  lemma SettingsPrecedence(o: Overrides, env: Env, cache: Dict)
    ensures var s := ResolveSettings(o, env, cache);
            && s.model == FirstSome([o.model, Lookup(env, "MICROCODE_MODEL")])
            && s.subLm == FirstSome([o.subLm, Lookup(env, "MICROCODE_SUB_LM")])
            && s.envTag == FirstSome([o.env, NonEmpty(Lookup(env, "MODAIC_ENV")), Lookup(env, "MICROCODE_ENV")])
  {
    FirstSomeOfTwo(o.model, Lookup(env, "MICROCODE_MODEL"));
    FirstSomeOfTwo(o.subLm, Lookup(env, "MICROCODE_SUB_LM"));
    FirstSomeOfThree(o.env, NonEmpty(Lookup(env, "MODAIC_ENV")), Lookup(env, "MICROCODE_ENV"));
  }

  /** The API base and `verbose`: `MICROCODE_API_BASE` counts even when
      empty, `MICROCODE_VERBOSE` whenever it is set (only `"1"` reads as
      true), a cached `verbose` whenever the key is present, and `verbose`
      falls back to false. */
  lemma SwitchPrecedence(o: Overrides, env: Env, cache: Dict)
    ensures var s := ResolveSettings(o, env, cache);
            && s.apiBase == FirstSome([StrScalar(o.apiBase), StrScalar(Lookup(env, "MICROCODE_API_BASE")),
                                       Get(cache, "api_base")])
            && s.verbose == FirstSome([o.verbose,
                                       if "MICROCODE_VERBOSE" in env then Some(env["MICROCODE_VERBOSE"] == "1") else None,
                                       if "verbose" in cache then Some(Truthy(cache["verbose"])) else None]).GetOr(false)
  {
    FirstSomeOfThree(StrScalar(o.apiBase), StrScalar(Lookup(env, "MICROCODE_API_BASE")), Get(cache, "api_base"));
    FirstSomeOfThree(o.verbose,
                     if "MICROCODE_VERBOSE" in env then Some(env["MICROCODE_VERBOSE"] == "1") else None,
                     if "verbose" in cache then Some(Truthy(cache["verbose"])) else None);
  }

  /** The configuration the agent is built from: the two models and
      `verbose` always, each limit exactly when it is known, and the API
      base only when it is truthy. */
  function AgentConfig(model: string, subLm: string, s: Settings): (c: Dict)
    ensures "lm" in c && c["lm"] == SStr(model)
    ensures "sub_lm" in c && c["sub_lm"] == SStr(subLm)
    ensures "verbose" in c && c["verbose"] == SBool(s.verbose)
    ensures ("max_iters" in c <==> s.maxIters.Some?) && ("max_iters" in c ==> c["max_iters"] == s.maxIters.value)
    ensures ("max_tokens" in c <==> s.maxTokens.Some?) && ("max_tokens" in c ==> c["max_tokens"] == s.maxTokens.value)
    ensures ("max_output_chars" in c <==> s.maxOutputChars.Some?)
            && ("max_output_chars" in c ==> c["max_output_chars"] == s.maxOutputChars.value)
    ensures ("api_base" in c <==> s.apiBase.Some? && Truthy(s.apiBase.value))
            && ("api_base" in c ==> c["api_base"] == s.apiBase.value)
    ensures c.Keys <= {"lm", "sub_lm", "verbose", "max_iters", "max_tokens", "max_output_chars", "api_base"}
  {
    var c := map["lm" := SStr(model), "sub_lm" := SStr(subLm), "verbose" := SBool(s.verbose)];
    var c := if s.maxIters.Some? then c["max_iters" := s.maxIters.value] else c;
    var c := if s.maxTokens.Some? then c["max_tokens" := s.maxTokens.value] else c;
    var c := if s.maxOutputChars.Some? then c["max_output_chars" := s.maxOutputChars.value] else c;
    if s.apiBase.Some? && Truthy(s.apiBase.value) then c["api_base" := s.apiBase.value] else c
  }

  /** The arguments of `save_settings_config`. */
  datatype SavedSettings = SavedSettings(
    maxIters: Option<Scalar>, maxTokens: Option<Scalar>, maxOutputChars: Option<Scalar>,
    apiBase: Option<Scalar>, verbose: bool)

  /** What lines 304-310 pass to `save_settings_config`. */
  function SettingsToSave(s: Settings): SavedSettings {
    SavedSettings(s.maxIters, s.maxTokens, s.maxOutputChars, s.apiBase, s.verbose)
  }

  /** An optional value as a JSON entry: `None` is written as `null`. */
  function Stored(o: Option<Scalar>): Scalar {
    match o
    case None => SNull
    case Some(v) => v
  }

  /** The settings cache after `save_settings_config`: each argument under
      the key the settings chain reads it back from. */
  function SavedAsCache(saved: SavedSettings): Dict {
    map["max_iters" := Stored(saved.maxIters), "max_tokens" := Stored(saved.maxTokens),
        "max_output_chars" := Stored(saved.maxOutputChars), "api_base" := Stored(saved.apiBase),
        "verbose" := SBool(saved.verbose)]
  }

  /** `run_interactive` called without keyword arguments. */
  const NoOverrides: Overrides := Overrides(None, None, None, None, None, None, None, None, None)

  /** No environment variable stands in front of the settings cache. */
  predicate NoSettingVariables(env: Env) {
    && "MICROCODE_MAX_ITERATIONS" !in env && "MICROCODE_MAX_TOKENS" !in env
    && "MICROCODE_MAX_OUTPUT_CHARS" !in env && "MICROCODE_API_BASE" !in env && "MICROCODE_VERBOSE" !in env
  }

  /** Saving is lossless: a later session started with no arguments and no
      setting variables resolves, from the saved cache, exactly the limits,
      API base and verbose flag this session resolved. */
  lemma SettingsSurviveRestart(o: Overrides, env: Env, cache: Dict, next: Env)
    requires NoSettingVariables(next)
    ensures var s := ResolveSettings(o, env, cache);
            var t := ResolveSettings(NoOverrides, next, SavedAsCache(SettingsToSave(s)));
            && t.maxIters == s.maxIters && t.maxTokens == s.maxTokens && t.maxOutputChars == s.maxOutputChars
            && t.apiBase == s.apiBase && t.verbose == s.verbose
  {
  }

  /** What is saved and what the agent is given agree: each limit reads
      back from the configuration exactly as it is saved, and the API base
      differs only in that a falsy one is saved but not passed on. */
  lemma SavedMatchesAgentConfig(model: string, subLm: string, o: Overrides, env: Env, cache: Dict)
    ensures var s := ResolveSettings(o, env, cache);
            var c := AgentConfig(model, subLm, s);
            var saved := SettingsToSave(s);
            && Get(c, "max_iters") == saved.maxIters
            && Get(c, "max_tokens") == saved.maxTokens
            && Get(c, "max_output_chars") == saved.maxOutputChars
            && Get(c, "api_base") == (if saved.apiBase.Some? && Truthy(saved.apiBase.value) then saved.apiBase else None)
            && c["verbose"] == SBool(saved.verbose)
  {
  }

  /** The environment after lines 283-290: `MODAIC_ENV` takes a truthy
      environment tag; `OPENROUTER_API_KEY`, unless it already holds a
      non-empty value, takes the `--api-key` value and otherwise the cached
      key. `storedKey` is what `load_openrouter_key` returns. */
  function ApplyStartupEnv(env: Env, envTag: Option<string>, apiKey: Option<string>, storedKey: Option<string>)
    : (r: Env)
    ensures forall name :: name in env ==> name in r
    ensures forall name :: name in r && name != "MODAIC_ENV" && name != "OPENROUTER_API_KEY" ==>
              name in env && r[name] == env[name]
    ensures Lookup(r, "MODAIC_ENV") == FirstSome([NonEmpty(envTag), Lookup(env, "MODAIC_ENV")])
    ensures Lookup(r, "OPENROUTER_API_KEY")
              == FirstSome([NonEmpty(Lookup(env, "OPENROUTER_API_KEY")), NonEmpty(apiKey), NonEmpty(storedKey),
                            Lookup(env, "OPENROUTER_API_KEY")])
  {
    var tagged := SetEnvTag(env, envTag);
    assert Lookup(tagged, "OPENROUTER_API_KEY") == Lookup(env, "OPENROUTER_API_KEY");
    SetApiKey(tagged, apiKey, storedKey)
  }

  /** `if env: os.environ["MODAIC_ENV"] = env`. */
  function SetEnvTag(env: Env, envTag: Option<string>): (r: Env)
    ensures forall name :: name in env ==> name in r
    ensures forall name :: name in r && name != "MODAIC_ENV" ==> name in env && r[name] == env[name]
    ensures Lookup(r, "MODAIC_ENV") == FirstSome([NonEmpty(envTag), Lookup(env, "MODAIC_ENV")])
  {
    FirstSomeOfTwo(NonEmpty(envTag), Lookup(env, "MODAIC_ENV"));
    if NonEmpty(envTag).Some? then env["MODAIC_ENV" := envTag.value] else env
  }

  /** Lines 285-290: the `--api-key` value, then the cached key, each only
      while `OPENROUTER_API_KEY` is unset or empty. */
  function SetApiKey(env: Env, apiKey: Option<string>, storedKey: Option<string>): (r: Env)
    ensures forall name :: name in env ==> name in r
    ensures forall name :: name in r && name != "OPENROUTER_API_KEY" ==> name in env && r[name] == env[name]
    ensures Lookup(r, "OPENROUTER_API_KEY")
              == FirstSome([NonEmpty(Lookup(env, "OPENROUTER_API_KEY")), NonEmpty(apiKey), NonEmpty(storedKey),
                            Lookup(env, "OPENROUTER_API_KEY")])
  {
    FirstSomeOfFour(NonEmpty(Lookup(env, "OPENROUTER_API_KEY")), NonEmpty(apiKey), NonEmpty(storedKey),
                    Lookup(env, "OPENROUTER_API_KEY"));
    var withArg := if NonEmpty(apiKey).Some? && !EnvTruthy(env, "OPENROUTER_API_KEY")
                   then env["OPENROUTER_API_KEY" := apiKey.value] else env;
    if NonEmpty(storedKey).Some? && !EnvTruthy(withArg, "OPENROUTER_API_KEY")
    then withArg["OPENROUTER_API_KEY" := storedKey.value] else withArg
  }
}
