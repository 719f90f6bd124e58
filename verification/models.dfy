/** Model identifiers, the selection menus, startup model resolution and
    the `/model` hot-swap (microcode/utils/models.py). The agent program,
    MCP registration and the model-config file are external; they appear
    here as function parameters and plain values. */
module Models {
  import opened Wrappers
  import opened Strings
  import opened Values

  const ProviderPrefix: string := "openrouter/"

  /** `normalize_model_id`: prefix the provider namespace unless present. */
  function NormalizeModelId(id: string): (r: string)
    ensures ProviderPrefix <= r
    ensures ProviderPrefix <= id ==> r == id
    ensures !(ProviderPrefix <= id) ==> r == ProviderPrefix + id
  {
    if ProviderPrefix <= id then id else ProviderPrefix + id
  }

  /** Normalizing is idempotent, and the original id is always a suffix of
      the normalized one. */
  lemma NormalizeIdempotent(id: string)
    ensures NormalizeModelId(NormalizeModelId(id)) == NormalizeModelId(id)
    ensures var r := NormalizeModelId(id); |id| <= |r| && r[|r| - |id|..] == id
  {
  }

  // ---------------------------------------------------------------------
  // Menus
  // ---------------------------------------------------------------------

  datatype CatalogEntry = CatalogEntry(name: string, id: string)

  /** `AVAILABLE_MODELS`, in key order "1" .. "8". */
  const Catalog: seq<CatalogEntry> := [
    CatalogEntry("GPT-5.2 Codex", "openai/gpt-5.2-codex"),
    CatalogEntry("GPT-5.2", "openai/gpt-5.2"),
    CatalogEntry("Claude Opus 4.5", "anthropic/claude-opus-4.5"),
    CatalogEntry("Claude Opus 4", "anthropic/claude-opus-4"),
    CatalogEntry("Qwen 3 Coder", "qwen/qwen3-coder"),
    CatalogEntry("Gemini 3 Flash Preview", "google/gemini-3-flash-preview"),
    CatalogEntry("Kimi K2 0905", "moonshotai/kimi-k2-0905"),
    CatalogEntry("Minimax M2.1", "minimax/minimax-m2.1")
  ]

  const CustomOption: string := "__custom__"
  const KeepOption: string := "__keep__"
  const PrimaryOption: string := "__primary__"

  predicate IsSentinel(id: string) {
    id == CustomOption || id == KeepOption || id == PrimaryOption
  }

  predicate InCatalog(id: string) {
    exists i :: 0 <= i < |Catalog| && Catalog[i].id == id
  }

  /** One entry of a selection menu: the text shown and the id returned. */
  datatype MenuEntry = MenuEntry(caption: string, id: string)

  function Ids(entries: seq<MenuEntry>): (ids: seq<string>)
    ensures |ids| == |entries|
    ensures forall i :: 0 <= i < |entries| ==> ids[i] == entries[i].id
  {
    seq(|entries|, i requires 0 <= i < |entries| => entries[i].id)
  }

  /** `_build_model_options`: the catalog in order, then the "use primary",
      "custom" and "keep" entries, each only when asked for. */
  function BuildModelOptions(includeCustom: bool, includeKeep: bool, includePrimary: bool)
    : (r: seq<MenuEntry>)
    ensures |r| == |Catalog| + (if includePrimary then 1 else 0)
                             + (if includeCustom then 1 else 0) + (if includeKeep then 1 else 0)
    ensures forall i :: 0 <= i < |Catalog| ==> r[i].id == Catalog[i].id
    ensures forall i :: |Catalog| <= i < |r| ==> IsSentinel(r[i].id)
    ensures includePrimary ==> PrimaryOption in Ids(r)
    ensures includeCustom ==> CustomOption in Ids(r)
    ensures includeKeep ==> KeepOption in Ids(r)
  {
    var catalog := seq(|Catalog|, i requires 0 <= i < |Catalog| =>
      MenuEntry(Catalog[i].name + " (" + Catalog[i].id + ")", Catalog[i].id));
    var r := catalog
      + (if includePrimary then [MenuEntry("Use primary model", PrimaryOption)] else [])
      + (if includeCustom then [MenuEntry("Custom model (enter manually)", CustomOption)] else [])
      + (if includeKeep then [MenuEntry("Keep current model", KeepOption)] else []);
    assert includePrimary ==> Ids(r)[|Catalog|] == PrimaryOption;
    assert includeCustom ==> Ids(r)[|Catalog| + (if includePrimary then 1 else 0)] == CustomOption;
    assert includeKeep ==> Ids(r)[|r| - 1] == KeepOption;
    r
  }

  /** The extra entries come in the fixed order primary, custom, keep, and
      each is offered exactly when its flag is set. */
  lemma OptionsOrder(includeCustom: bool, includeKeep: bool, includePrimary: bool)
    ensures var ids := Ids(BuildModelOptions(includeCustom, includeKeep, includePrimary));
            && (PrimaryOption in ids <==> includePrimary)
            && (CustomOption in ids <==> includeCustom)
            && (KeepOption in ids <==> includeKeep)
            && ids[|Catalog|..] == (if includePrimary then [PrimaryOption] else [])
                                   + (if includeCustom then [CustomOption] else [])
                                   + (if includeKeep then [KeepOption] else [])
  {
    var r := BuildModelOptions(includeCustom, includeKeep, includePrimary);
    var ids := Ids(r);
    var tail := (if includePrimary then [PrimaryOption] else [])
                + (if includeCustom then [CustomOption] else [])
                + (if includeKeep then [KeepOption] else []);
    assert ids[|Catalog|..] == tail;
    assert forall i :: 0 <= i < |Catalog| ==> !IsSentinel(ids[i]);
    assert ids == ids[..|Catalog|] + tail;
  }

  /** A menu answer: `None` when the menu was dismissed, otherwise the id
      of one of the offered entries. */
  predicate OfferedChoice(choice: Option<string>, menu: seq<MenuEntry>) {
    choice.Some? ==> choice.value in Ids(menu)
  }

  /** One round of `select_model`: the menu answer and, when "custom" was
      picked, the text typed at the prompt (`None` when the prompt was
      aborted with Ctrl-C or end of input). */
  datatype SelectRound = SelectRound(choice: Option<string>, typed: Option<string>)

  /** How `select_model` ended: a model id, `exit(1)` after the menu was
      dismissed, click's `Abort` escaping from the custom-id prompt, or the
      rounds given ran out while it was still asking. */
  datatype Selection = Selected(id: string) | SelectionCancelled | SelectionAborted | StillAsking

  /** A round that makes `select_model` ask again: "custom" with an id that
      is empty once stripped. */
  predicate IsRetry(round: SelectRound) {
    round.choice == Some(CustomOption) && round.typed.Some? && Trim(round.typed.value) == ""
  }

  /** `select_model`: the first round that is not a retry decides. A
      dismissed menu cancels, an aborted prompt aborts, a catalog pick is
      returned as is and a custom pick returns the stripped typed id. */
  function SelectModel(rounds: seq<SelectRound>): (r: Selection)
    requires forall i :: 0 <= i < |rounds| ==> OfferedChoice(rounds[i].choice, BuildModelOptions(true, false, false))
    ensures |rounds| == 0 ==> r == StillAsking
    ensures |rounds| > 0 && rounds[0].choice.None? ==> r == SelectionCancelled
    ensures |rounds| > 0 && rounds[0].choice.Some? && rounds[0].choice.value != CustomOption ==>
              r == Selected(rounds[0].choice.value) && InCatalog(r.id)
    ensures |rounds| > 0 && rounds[0].choice == Some(CustomOption) && rounds[0].typed.None? ==>
              r == SelectionAborted
    ensures |rounds| > 0 && rounds[0].choice == Some(CustomOption) && rounds[0].typed.Some? && !IsRetry(rounds[0]) ==>
              r == Selected(Trim(rounds[0].typed.value))
    ensures r.Selected? ==> r.id != "" && (InCatalog(r.id) || Stripped(r.id))
    decreases |rounds|
  {
    if |rounds| == 0 then StillAsking
    else
      assert OfferedChoice(rounds[0].choice, BuildModelOptions(true, false, false));
      match rounds[0].choice
      case None => SelectionCancelled
      case Some(choice) =>
        if choice == CustomOption then
          match rounds[0].typed
          case None => SelectionAborted
          case Some(typed) =>
            var custom := Trim(typed);
            if custom != "" then Selected(custom) else SelectModel(rounds[1..])
        else
          CustomMenuIds(choice);
          Selected(choice)
  }

  /** Retries are skipped: whatever number of empty custom ids come first,
      the selection is the one the rounds after them make. */
  lemma {:induction false} SelectModelSkipsRetries(rounds: seq<SelectRound>, k: nat)
    requires k <= |rounds|
    requires forall i :: 0 <= i < |rounds| ==> OfferedChoice(rounds[i].choice, BuildModelOptions(true, false, false))
    requires forall i :: 0 <= i < k ==> IsRetry(rounds[i])
    ensures SelectModel(rounds) == SelectModel(rounds[k..])
    decreases k
  {
    if k > 0 {
      assert IsRetry(rounds[0]);
      assert SelectModel(rounds) == SelectModel(rounds[1..]);
      SelectModelSkipsRetries(rounds[1..], k - 1);
      assert rounds[1..][k - 1..] == rounds[k..];
    }
  }

  /** The startup menu offers the catalog and the custom entry only. */
  lemma CustomMenuIds(id: string)
    requires id in Ids(BuildModelOptions(true, false, false))
    ensures id == CustomOption || InCatalog(id)
  {
    var ids := Ids(BuildModelOptions(true, false, false));
    var i :| 0 <= i < |ids| && ids[i] == id;
    if i < |Catalog| {
      assert Catalog[i].id == id;
    }
  }

  /** An empty custom id is rejected and the menu is shown again. */
  lemma {:induction false} SelectRetriesEmptyCustom(typed: string, rest: seq<SelectRound>)
    requires Trim(typed) == ""
    requires forall i :: 0 <= i < |rest| ==> OfferedChoice(rest[i].choice, BuildModelOptions(true, false, false))
    ensures SelectModel([SelectRound(Some(CustomOption), Some(typed))] + rest) == SelectModel(rest)
  {
    var rounds := [SelectRound(Some(CustomOption), Some(typed))] + rest;
    assert rounds[1..] == rest;
  }

  // ---------------------------------------------------------------------
  // Startup resolution
  // ---------------------------------------------------------------------

  datatype ModelPair = ModelPair(model: string, subLm: string)

  /** What `load_model_config` returns. */
  datatype StoredModels = StoredModels(model: Option<string>, subLm: Option<string>)

  /** The pair returned by `resolve_startup_models` and every
      `save_model_config` call it made, in order. */
  datatype StartupModels = StartupModels(pair: ModelPair, saves: seq<ModelPair>)

  /** `resolve_startup_models`: the model comes from a non-empty `MODEL`,
      else the cached model, else the interactive selection (`selected`,
      the value `select_model` returns); the sub model from a non-empty
      `SUB_LM`, else the cached sub model (the normalized selection on the
      selection path), else the model. Both are normalized. */
  function ResolveStartupModels(env: Env, cached: StoredModels, selected: string): (r: StartupModels)
    ensures ProviderPrefix <= r.pair.model && ProviderPrefix <= r.pair.subLm
    ensures r.pair.model == NormalizeModelId(
              FirstSome([NonEmpty(Lookup(env, "MODEL")), NonEmpty(cached.model)]).GetOr(selected))
  {
    var modelEnv := NonEmpty(Lookup(env, "MODEL"));
    var subEnv := NonEmpty(Lookup(env, "SUB_LM"));
    var cachedModel := NonEmpty(cached.model);
    var selecting := modelEnv.None? && cachedModel.None?;
    var model := if modelEnv.Some? then modelEnv.value
                 else if cachedModel.Some? then cachedModel.value
                 else selected;
    var firstSaves := if selecting then [ModelPair(NormalizeModelId(selected), NormalizeModelId(selected))]
                      else [];
    var cachedSub := if selecting then Some(NormalizeModelId(selected)) else cached.subLm;
    var sub := if subEnv.Some? then subEnv.value
               else if NonEmpty(cachedSub).Some? then cachedSub.value
               else model;
    var laterSaves := if cachedModel.Some? && NonEmpty(cachedSub).None?
                      then [ModelPair(NormalizeModelId(model), NormalizeModelId(sub))]
                      else [];
    StartupModels(ModelPair(NormalizeModelId(model), NormalizeModelId(sub)), firstSaves + laterSaves)
  }

  /** The sub model's precedence chain, with the cached level replaced by
      the normalized selection when the model had to be selected. */
  lemma StartupSubPrecedence(env: Env, cached: StoredModels, selected: string)
    ensures var r := ResolveStartupModels(env, cached, selected);
            var selecting := NonEmpty(Lookup(env, "MODEL")).None? && NonEmpty(cached.model).None?;
            var model := FirstSome([NonEmpty(Lookup(env, "MODEL")), NonEmpty(cached.model)]).GetOr(selected);
            var cachedSub := if selecting then Some(NormalizeModelId(selected)) else NonEmpty(cached.subLm);
            r.pair.subLm == NormalizeModelId(FirstSome([NonEmpty(Lookup(env, "SUB_LM")), cachedSub]).GetOr(model))
  {
  }

  /** What gets saved: the normalized selection as both models when the
      model had to be selected; the returned pair when a cached model has
      no cached sub model; nothing otherwise. */
  lemma StartupSaves(env: Env, cached: StoredModels, selected: string)
    ensures var r := ResolveStartupModels(env, cached, selected);
            var selecting := NonEmpty(Lookup(env, "MODEL")).None? && NonEmpty(cached.model).None?;
            && (selecting ==> r.saves == [ModelPair(NormalizeModelId(selected), NormalizeModelId(selected))])
            && (!selecting && NonEmpty(cached.model).Some? && NonEmpty(cached.subLm).None? ==> r.saves == [r.pair])
            && (!selecting && (NonEmpty(cached.model).None? || NonEmpty(cached.subLm).Some?) ==> r.saves == [])
  {
  }

  // ---------------------------------------------------------------------
  // The /model hot-swap
  // ---------------------------------------------------------------------

  /** The agent program as the session sees it: an opaque instance with the
      configuration it was built from. */
  datatype Agent = Agent(instance: nat, lm: string, subLm: string, config: Dict)

  /** An attached MCP server: its name (the key of `mcp_servers`), the
      server handle and the tool names registered against the agent. */
  datatype Server = Server(name: string, handle: nat, tools: seq<string>)

  /** `from_precompiled(repo, rev=..., config=...)`: an instance, or the
      message of the exception it raised. */
  type Construct = (Option<string>, Dict) -> Result<nat, string>

  /** `register_mcp_server(agent, name, server)`: tool names, or a failure. */
  type Register = (Agent, string, nat) -> Result<seq<string>, string>

  /** The agent's record of its two models agrees with the configuration
      it was built from. */
  predicate Coherent(a: Agent) {
    Get(a.config, "lm") == Some(SStr(a.lm)) && Get(a.config, "sub_lm") == Some(SStr(a.subLm))
  }

  /** Building an agent succeeds exactly when `from_precompiled` does, and
      fails with its message; the agent built from a configuration naming
      `lm` and `subLm` is coherent. */
  function BuildAgent(construct: Construct, rev: Option<string>, lm: string, subLm: string, config: Dict)
    : (r: Result<Agent, string>)
    ensures r.Success? <==> construct(rev, config).Success?
    ensures r.Failure? ==> r.error == construct(rev, config).error
    ensures r.Success? ==> r.value.instance == construct(rev, config).value
                           && r.value.lm == lm && r.value.subLm == subLm && r.value.config == config
    ensures r.Success? ==>
              (Get(config, "lm") == Some(SStr(lm)) && Get(config, "sub_lm") == Some(SStr(subLm)) ==> Coherent(r.value))
  {
    match construct(rev, config)
    case Success(n) => Success(Agent(n, lm, subLm, config))
    case Failure(e) => Failure(e)
  }

  /** The position of the first server, at or after `i`, whose registration
      against `agent` raises (or `|servers|` when none does). */
  function FirstFailure(servers: seq<Server>, agent: Agent, register: Register, i: nat): (k: nat)
    requires i <= |servers|
    ensures i <= k <= |servers|
    ensures forall m :: i <= m < k ==> register(agent, servers[m].name, servers[m].handle).Success?
    ensures k < |servers| ==> register(agent, servers[k].name, servers[k].handle).Failure?
    decreases |servers| - i
  {
    if i < |servers| && register(agent, servers[i].name, servers[i].handle).Success? then
      FirstFailure(servers, agent, register, i + 1)
    else i
  }

  /** How registering every server against a new agent ended: the server
      list as the loop left it, and the failure that stopped it, if any. */
  datatype Reregistered = Reregistered(servers: seq<Server>, failure: Option<string>)

  /** `for server_name, info in mcp_servers.items(): info["tools"] = register(...)`:
      in insertion order, each server's tools are replaced by the result of
      registering it; a raising registration stops the loop with the servers
      before it already updated and the rest untouched. Names and handles
      never change. */
  function Reregister(servers: seq<Server>, agent: Agent, register: Register): (r: Reregistered)
    ensures |r.servers| == |servers|
    ensures forall i :: 0 <= i < |servers| ==>
              r.servers[i].name == servers[i].name && r.servers[i].handle == servers[i].handle
    ensures r.failure.None? ==> forall i :: 0 <= i < |servers| ==>
              register(agent, servers[i].name, servers[i].handle) == Success(r.servers[i].tools)
    ensures r.failure.Some? ==>
              var k := FirstFailure(servers, agent, register, 0);
              && k < |servers|
              && register(agent, servers[k].name, servers[k].handle) == Failure(r.failure.value)
              && r.servers[k..] == servers[k..]
              && forall i :: 0 <= i < k ==>
                   register(agent, servers[i].name, servers[i].handle) == Success(r.servers[i].tools)
  {
    var k := FirstFailure(servers, agent, register, 0);
    var updated := seq(|servers|, i requires 0 <= i < |servers| =>
      if i < k then servers[i].(tools := register(agent, servers[i].name, servers[i].handle).value)
      else servers[i]);
    if k < |servers| then
      Reregistered(updated, Some(register(agent, servers[k].name, servers[k].handle).error))
    else Reregistered(updated, None)
  }

  /** The answers given to the prompts `/model` may show: the primary menu
      (`None` if dismissed), the custom primary id typed at `click.prompt`,
      the sub-model menu and the custom sub-model id. A custom id is `None`
      when its prompt was aborted (Ctrl-C or end of input raise click's
      `Abort`). */
  datatype ModelAnswers = ModelAnswers(
    primary: Option<string>, customPrimary: Option<string>,
    sub: Option<string>, customSub: Option<string>)

  /** The custom primary id was asked for and its prompt aborted. */
  predicate PrimaryPromptAborted(a: ModelAnswers) {
    a.primary == Some(CustomOption) && a.customPrimary.None?
  }

  /** The custom sub-model id was asked for and its prompt aborted. */
  predicate SubPromptAborted(a: ModelAnswers) {
    a.sub == Some(CustomOption) && a.customSub.None?
  }

  /** The primary menu only returns ids it offered (the catalog lookup of
      the chosen name relies on this). */
  predicate ValidAnswers(a: ModelAnswers) {
    OfferedChoice(a.primary, BuildModelOptions(true, true, false))
  }

  /** The sub-model decision: dismissed or "keep" keeps the current sub
      model, "primary" takes the new model, an empty custom id keeps the
      current one, anything else is the chosen id; always normalized. */
  function SubModelChoice(sub: Option<string>, customSub: Option<string>, currentSub: string, newModel: string)
    : (r: string)
    requires sub == Some(CustomOption) ==> customSub.Some?
    ensures ProviderPrefix <= r
    ensures sub.None? || sub == Some(KeepOption) ==> r == NormalizeModelId(currentSub)
    ensures sub == Some(PrimaryOption) ==> r == NormalizeModelId(newModel)
    ensures sub == Some(CustomOption) ==>
              r == (if Trim(customSub.value) == "" then NormalizeModelId(currentSub)
                    else NormalizeModelId(Trim(customSub.value)))
    ensures sub.Some? && !IsSentinel(sub.value) ==> r == NormalizeModelId(sub.value)
  {
    match sub
    case None => NormalizeModelId(currentSub)
    case Some(choice) =>
      if choice == KeepOption then NormalizeModelId(currentSub)
      else if choice == PrimaryOption then NormalizeModelId(newModel)
      else if choice == CustomOption then
        var custom := Trim(customSub.value);
        if custom == "" then NormalizeModelId(currentSub) else NormalizeModelId(custom)
      else NormalizeModelId(choice)
  }

  /** How `handle_model_command` ended. `Kept` and `Swapped` return
      `handled = True`; `SwapFailed` is an exception escaping to the loop,
      leaving `mcp_servers` as the registration loop left it; `PromptAborted`
      is click's `Abort` escaping from a custom-id prompt before anything
      was rebuilt. */
  datatype SwapOutcome =
    | NotHandled
    | Kept(subLm: string)
    | Swapped(agent: Agent, subLm: string, servers: seq<Server>, saved: ModelPair)
    | SwapFailed(error: string, servers: seq<Server>)
    | PromptAborted

  /** The primary model chosen in the first menu, or `None` when the
      command returns early (menu dismissed, or an empty custom id). */
  function PrimaryChoice(a: ModelAnswers, currentLm: string): (r: Option<string>)
    requires !PrimaryPromptAborted(a)
    ensures a.primary.None? ==> r.None?
    ensures a.primary == Some(KeepOption) ==> r == Some(currentLm)
    ensures a.primary == Some(CustomOption) ==>
              r == (if Trim(a.customPrimary.value) == "" then None
                    else Some(NormalizeModelId(Trim(a.customPrimary.value))))
    ensures a.primary.Some? && !IsSentinel(a.primary.value) ==> r == Some(NormalizeModelId(a.primary.value))
  {
    match a.primary
    case None => None
    case Some(choice) =>
      if choice == KeepOption then Some(currentLm)
      else if choice == CustomOption then
        var custom := Trim(a.customPrimary.value);
        if custom == "" then None else Some(NormalizeModelId(custom))
      else Some(NormalizeModelId(choice))
  }

  /** `handle_model_command`. */
  function HandleModelCommand(
    input: string, agent: Agent, servers: seq<Server>, answers: ModelAnswers,
    construct: Construct, register: Register): (r: SwapOutcome)
    requires ValidAnswers(answers)
    ensures r.NotHandled? <==> input != "/model"
    ensures r.Kept? ==> r.subLm == NormalizeModelId(agent.subLm)
    ensures r.Swapped? ==> r.saved == ModelPair(r.agent.lm, r.agent.subLm) && r.subLm == r.saved.subLm
    ensures r.Swapped? ==> Coherent(r.agent) && ProviderPrefix <= r.agent.lm && ProviderPrefix <= r.agent.subLm
    ensures r.Swapped? || r.SwapFailed? ==> |r.servers| == |servers|
  {
    if input != "/model" then NotHandled
    else if PrimaryPromptAborted(answers) then PromptAborted
    else match PrimaryChoice(answers, agent.lm)
      case None => Kept(NormalizeModelId(agent.subLm))
      case Some(newModel) =>
        if SubPromptAborted(answers) then PromptAborted
        else
        var newSub := SubModelChoice(answers.sub, answers.customSub, agent.subLm, newModel);
        var lm := NormalizeModelId(newModel);
        var config := map["lm" := SStr(lm), "sub_lm" := SStr(newSub)];
        match BuildAgent(construct, None, lm, newSub, config)
        case Failure(e) => SwapFailed(e, servers)
        case Success(rebuilt) =>
          var rr := Reregister(servers, rebuilt, register);
          if rr.failure.Some? then SwapFailed(rr.failure.value, rr.servers)
          else Swapped(rebuilt, newSub, rr.servers, ModelPair(lm, newSub))
  }

  /** `/model` takes over exactly when it is the whole input, and it returns
      early, keeping the agent, only when the primary menu is dismissed or
      the custom id is empty. */
  lemma HandleKeepsWhenNoPrimary(
    input: string, agent: Agent, servers: seq<Server>, answers: ModelAnswers,
    construct: Construct, register: Register)
    requires ValidAnswers(answers)
    ensures var r := HandleModelCommand(input, agent, servers, answers, construct, register);
            r.Kept? <==> input == "/model" && (answers.primary.None? ||
                           (answers.primary == Some(CustomOption) && answers.customPrimary.Some?
                            && Trim(answers.customPrimary.value) == ""))
  {
  }

  /** An aborted custom-id prompt ends the command with nothing rebuilt:
      the primary prompt always, the sub-model prompt once a new primary
      model was chosen. */
  lemma HandleAbortsOnPrompt(
    input: string, agent: Agent, servers: seq<Server>, answers: ModelAnswers,
    construct: Construct, register: Register)
    requires ValidAnswers(answers)
    ensures var r := HandleModelCommand(input, agent, servers, answers, construct, register);
            r.PromptAborted? <==> input == "/model" && (PrimaryPromptAborted(answers) ||
                                    (PrimaryChoice(answers, agent.lm).Some? && SubPromptAborted(answers)))
  {
  }

  /** All or nothing: when the new agent cannot be built, the construction
      error itself escapes, with every server exactly as it was and nothing
      saved. */
  lemma HandleConstructionFailure(
    agent: Agent, servers: seq<Server>, answers: ModelAnswers,
    construct: Construct, register: Register, newModel: string)
    requires ValidAnswers(answers) && !PrimaryPromptAborted(answers) && !SubPromptAborted(answers)
    requires PrimaryChoice(answers, agent.lm) == Some(newModel)
    requires var sub := SubModelChoice(answers.sub, answers.customSub, agent.subLm, newModel);
             var lm := NormalizeModelId(newModel);
             construct(None, map["lm" := SStr(lm), "sub_lm" := SStr(sub)]).Failure?
    ensures var r := HandleModelCommand("/model", agent, servers, answers, construct, register);
            r.SwapFailed? && r.servers == servers
    ensures var sub := SubModelChoice(answers.sub, answers.customSub, agent.subLm, newModel);
            var lm := NormalizeModelId(newModel);
            var r := HandleModelCommand("/model", agent, servers, answers, construct, register);
            r.error == construct(None, map["lm" := SStr(lm), "sub_lm" := SStr(sub)]).error
  {
  }

  /** A completed swap rebuilds the agent from the chosen pair only, gives
      every server the tools registered against the new agent, and saves
      exactly the pair it returns. */
  lemma HandleSwapped(
    input: string, agent: Agent, servers: seq<Server>, answers: ModelAnswers,
    construct: Construct, register: Register)
    requires ValidAnswers(answers)
    ensures var r := HandleModelCommand(input, agent, servers, answers, construct, register);
            r.Swapped? ==>
              && input == "/model"
              && construct(None, r.agent.config).Success?
              && r.agent.instance == construct(None, r.agent.config).value
              && !PrimaryPromptAborted(answers) && !SubPromptAborted(answers)
              && PrimaryChoice(answers, agent.lm).Some?
              && r.saved.model == NormalizeModelId(PrimaryChoice(answers, agent.lm).value)
              && r.saved.subLm == SubModelChoice(answers.sub, answers.customSub, agent.subLm,
                                                 PrimaryChoice(answers, agent.lm).value)
              && r.agent.config == map["lm" := SStr(r.saved.model), "sub_lm" := SStr(r.saved.subLm)]
              && (forall i :: 0 <= i < |servers| ==>
                    && r.servers[i].name == servers[i].name
                    && r.servers[i].handle == servers[i].handle
                    && register(r.agent, servers[i].name, servers[i].handle) == Success(r.servers[i].tools))
  {
  }

  /** Once the new agent is built, the outcome is decided by re-registration
      alone: every server registering gives the swap to the built agent with
      the re-registered servers and the chosen pair saved, and a raising
      registration fails with the servers as the loop left them. */
  lemma HandleRebuildOutcome(
    agent: Agent, servers: seq<Server>, answers: ModelAnswers,
    construct: Construct, register: Register, newModel: string)
    requires ValidAnswers(answers) && !PrimaryPromptAborted(answers) && !SubPromptAborted(answers)
    requires PrimaryChoice(answers, agent.lm) == Some(newModel)
    requires var sub := SubModelChoice(answers.sub, answers.customSub, agent.subLm, newModel);
             var lm := NormalizeModelId(newModel);
             construct(None, map["lm" := SStr(lm), "sub_lm" := SStr(sub)]).Success?
    ensures var sub := SubModelChoice(answers.sub, answers.customSub, agent.subLm, newModel);
            var lm := NormalizeModelId(newModel);
            var config := map["lm" := SStr(lm), "sub_lm" := SStr(sub)];
            var built := Agent(construct(None, config).value, lm, sub, config);
            var rr := Reregister(servers, built, register);
            var r := HandleModelCommand("/model", agent, servers, answers, construct, register);
            && (rr.failure.None? ==> r == Swapped(built, sub, rr.servers, ModelPair(lm, sub)))
            && (rr.failure.Some? ==> r == SwapFailed(rr.failure.value, rr.servers))
  {
  }

  /** Choosing the custom id `foo/bar` and then "use primary model" swaps
      both models to `openrouter/foo/bar`. */
  lemma CustomThenPrimaryScenario(
    agent: Agent, servers: seq<Server>, construct: Construct, register: Register)
    requires construct(None, map["lm" := SStr("openrouter/foo/bar"), "sub_lm" := SStr("openrouter/foo/bar")]).Success?
    requires forall i :: 0 <= i < |servers| ==> register(
               Agent(construct(None, map["lm" := SStr("openrouter/foo/bar"), "sub_lm" := SStr("openrouter/foo/bar")]).value,
                     "openrouter/foo/bar", "openrouter/foo/bar",
                     map["lm" := SStr("openrouter/foo/bar"), "sub_lm" := SStr("openrouter/foo/bar")]),
               servers[i].name, servers[i].handle).Success?
    ensures var answers := ModelAnswers(Some(CustomOption), Some("foo/bar"), Some(PrimaryOption), None);
            var r := HandleModelCommand("/model", agent, servers, answers, construct, register);
            r.Swapped? && r.saved == ModelPair("openrouter/foo/bar", "openrouter/foo/bar")
            && r.subLm == "openrouter/foo/bar"
  {
    var answers := ModelAnswers(Some(CustomOption), Some("foo/bar"), Some(PrimaryOption), None);
    assert Stripped("foo/bar");
    assert !(ProviderPrefix <= "foo/bar");
    assert ProviderPrefix + "foo/bar" == "openrouter/foo/bar";
  }
}
