/** One interactive session (`run_interactive`, microcode/main.py): how it
    starts, and what one pass of the read-dispatch loop does to the session
    state. Terminal output is reduced to the `Action` a pass ends with. */
module Session {
  import opened Wrappers
  import opened Values
  import opened Strings
  import opened Display
  import opened Paste
  import opened Models
  import opened Config
  import opened Commands
  import opened Task

  /** Everything one pass of the loop can read or change: the two model
      labels, the agent and its MCP servers, the conversation, the paste
      slot, the process environment, the key and model-config stores, and
      the fixed parameters of the session. */
  datatype State = State(
    model: string, subLm: string, agent: Agent, servers: seq<Server>, history: seq<Turn>,
    slot: Slot, env: Env, keyStore: Option<string>, modelStore: StoredModels,
    threshold: int, historyLimit: int, cwd: string)

  /** What `handle_add_mcp_command` reports and leaves in `mcp_servers`. */
  datatype McpReply = McpReply(handled: bool, servers: seq<Server>)
  type McpHandler = (string, Agent, seq<Server>) -> Result<McpReply, string>

  /** `agent(task=...)`: an answer, a raised exception's message, or a
      keyboard interrupt. The agent reads the process environment (the
      OpenRouter key among it) when it calls the model. */
  datatype Reply = Answered(answer: string) | Raised(message: string) | Cancelled
  type Invoke = (Agent, Env, string) -> Reply

  /** The code the loop calls but that is not modelled here. */
  datatype Collaborators = Collaborators(
    construct: Construct, register: Register, mcp: McpHandler, invoke: Invoke)

  /** What the outside world supplies during one pass: the line source,
      `shlex.split` of the line (or its `ValueError`), the hidden-prompt
      answer (`None` for Ctrl-C / end of input), the `/model` menu answers
      and the current time as formatted in the context. */
  datatype StepInput = StepInput(
    source: Source, keyWords: Result<seq<string>, string>, keyPrompt: Option<string>,
    answers: ModelAnswers, now: string)

  datatype Action =
    | Exit
    | Ignored
    | HelpShown
    | ScreenCleared
    | KeyCleared
    | KeyNotSet
    | KeySaved
    | ConversationCleared
    | ModelUnchanged
    | ModelSwitched
    | McpManaged
    | Replied(task: string, shown: string)
    | AuthFailureShown(message: string)
    | ErrorShown(message: string)

  datatype StepResult = StepResult(state: State, action: Action)

  const KeyVar: string := "OPENROUTER_API_KEY"

  /** The parts of the state no pass ever changes: the model label and the
      fixed session parameters. */
  predicate SameFrame(a: State, b: State) {
    a.model == b.model && a.threshold == b.threshold && a.historyLimit == b.historyLimit && a.cwd == b.cwd
  }

  /** The conversation grew by exactly one turn: the stripped `input` and
      the agent's answer, which the action shows rendered. */
  predicate AnswerRecorded(before: seq<Turn>, input: string, r: StepResult) {
    && r.action.Replied?
    && |r.state.history| == |before| + 1
    && r.state.history[..|before|] == before
    && r.state.history[|before|].user == input
    && r.action.shown == RenderMarkdown(r.state.history[|before|].assistant)
  }

  /** The actions that report a failure. */
  predicate IsFailure(a: Action) {
    a.AuthFailureShown? || a.ErrorShown?
  }

  /** The `except Exception` handler: an authentication problem is shown
      with its fixed text, anything else with its own message. */
  function ShowFailure(message: string): (a: Action)
    ensures a.AuthFailureShown? <==> FormatAuthError(message).Some?
    ensures a.AuthFailureShown? ==> a.message == FormatAuthError(message).value
    ensures a.ErrorShown? <==> FormatAuthError(message).None?
    ensures a.ErrorShown? ==> a.message == message
    ensures IsFailure(a)
  {
    match FormatAuthError(message)
    case Some(text) => AuthFailureShown(text)
    case None => ErrorShown(message)
  }

  /** What every pass keeps true: the sub-model label is the agent's sub
      model, both of the agent's models carry the provider prefix, and the
      agent's configuration names the models it holds. */
  predicate Consistent(s: State) {
    && s.subLm == s.agent.subLm
    && ProviderPrefix <= s.agent.lm && ProviderPrefix <= s.agent.subLm
    && Coherent(s.agent)
  }

  /** The `/key` branch: only the key store and the environment can change,
      and they change exactly as the command's outcome says. */
  function KeyStep(s: State, inp: StepInput): (r: StepResult)
    ensures r.state == s.(keyStore := r.state.keyStore, env := r.state.env)
    ensures inp.keyWords.Failure? ==> r == StepResult(s, ShowFailure(inp.keyWords.error))
    ensures r.action == KeyCleared <==>
              inp.keyWords.Success? && KeyCommandOutcome(inp.keyWords.value, inp.keyPrompt) == KeyRemoved
    ensures r.action == KeyCleared ==> r.state.keyStore.None? && r.state.env == s.env - {KeyVar}
    ensures r.action == KeySaved <==>
              inp.keyWords.Success? && KeyCommandOutcome(inp.keyWords.value, inp.keyPrompt).KeyStored?
    ensures r.action == KeySaved ==>
              var key := KeyCommandOutcome(inp.keyWords.value, inp.keyPrompt).key;
              key != "" && r.state.keyStore == Some(key) && r.state.env == s.env[KeyVar := key]
    ensures r.action == KeyNotSet <==>
              inp.keyWords.Success? && KeyCommandOutcome(inp.keyWords.value, inp.keyPrompt) == KeyRejected
    ensures r.action == Exit <==>
              inp.keyWords.Success? && KeyCommandOutcome(inp.keyWords.value, inp.keyPrompt) == KeyPromptAborted
    ensures r.action != KeyCleared && r.action != KeySaved ==> r.state == s
    ensures r.action in {KeyCleared, KeySaved, KeyNotSet, Exit} || IsFailure(r.action)
  {
    match inp.keyWords
    case Failure(e) => StepResult(s, ShowFailure(e))
    case Success(words) =>
      match KeyCommandOutcome(words, inp.keyPrompt)
      case KeyRemoved => StepResult(s.(keyStore := None, env := s.env - {KeyVar}), KeyCleared)
      case KeyRejected => StepResult(s, KeyNotSet)
      case KeyStored(key) => StepResult(s.(keyStore := Some(key), env := s.env[KeyVar := key]), KeySaved)
      case KeyPromptAborted => StepResult(s, Exit)
  }

  /** The task sent for `input`: the line, the context built from the
      session, and the stored paste when the line mentions its placeholder. */
  function TaskFor(s: State, input: string, now: string): string {
    TaskText(input, s.cwd, now, s.history, s.historyLimit, ConsumePasteForInput(s.slot, input).payload)
  }

  /** A line that reaches the agent: the paste slot is consumed, the task
      is sent with the current environment, and the conversation grows by
      the line and the answer exactly when the agent answers. */
  function TaskStep(s: State, input: string, inp: StepInput, c: Collaborators): (r: StepResult)
    ensures r.state == s.(slot := None, history := r.state.history)
    ensures var reply := c.invoke(s.agent, s.env, TaskFor(s, input, inp.now));
            && (r.action.Replied? <==> reply.Answered?)
            && (reply.Answered? ==>
                  && r.state.history == s.history + [Turn(input, reply.answer)]
                  && r.action == Replied(TaskFor(s, input, inp.now), RenderMarkdown(reply.answer)))
            && (!reply.Answered? ==> r.state.history == s.history)
            && (reply.Raised? ==> r.action == ShowFailure(reply.message))
            && (reply.Cancelled? ==> r.action == Exit)
    ensures r.action.Replied? ==> AnswerRecorded(s.history, input, r)
  {
    var consumed := ConsumePasteForInput(s.slot, input);
    var task := TaskText(input, s.cwd, inp.now, s.history, s.historyLimit, consumed.payload);
    var s' := s.(slot := consumed.slot);
    match c.invoke(s'.agent, s'.env, task)
    case Answered(answer) =>
      StepResult(s'.(history := s.history + [Turn(input, answer)]), Replied(task, RenderMarkdown(answer)))
    case Raised(message) => StepResult(s', ShowFailure(message))
    case Cancelled => StepResult(s', Exit)
  }

  /** `str(click.Abort())`: the message shown when a custom-id prompt is
      aborted. */
  const AbortMessage: string := ""

  /** The `/model` branch, falling through to the task path when the line
      only starts with `/model`. A kept model only renormalizes the sub
      label, a swap installs the new agent, its servers and its saved pair,
      and a failure or an aborted prompt reaches the loop's exception
      handler with the agent unchanged. */
  function ModelStep(s: State, input: string, inp: StepInput, c: Collaborators): (r: StepResult)
    requires ValidAnswers(inp.answers)
    ensures input != "/model" ==> r == TaskStep(s, input, inp, c)
    ensures var h := HandleModelCommand(input, s.agent, s.servers, inp.answers, c.construct, c.register);
            && (r.action == ModelUnchanged <==> h.Kept?)
            && (r.action == ModelSwitched <==> h.Swapped?)
            && (h.Kept? ==> r.state == s.(subLm := NormalizeModelId(s.agent.subLm)))
            && (h.Swapped? ==>
                  r.state == s.(agent := h.agent, subLm := h.agent.subLm, servers := h.servers,
                                modelStore := StoredModels(Some(h.agent.lm), Some(h.agent.subLm))))
            && (h.SwapFailed? ==> r == StepResult(s.(servers := h.servers), ShowFailure(h.error)))
            && (h.PromptAborted? ==> r == StepResult(s, ShowFailure(AbortMessage)))
    ensures SameFrame(s, r.state)
    ensures r.action == ModelSwitched ==>
              && r.state.subLm == r.state.agent.subLm
              && r.state.modelStore == StoredModels(Some(r.state.agent.lm), Some(r.state.agent.subLm))
    ensures r.action != ModelSwitched ==> r.state.modelStore == s.modelStore
    ensures r.state.history != s.history ==> AnswerRecorded(s.history, input, r)
  {
    match HandleModelCommand(input, s.agent, s.servers, inp.answers, c.construct, c.register)
    case NotHandled => TaskStep(s, input, inp, c)
    case Kept(sub) => StepResult(s.(subLm := sub), ModelUnchanged)
    case Swapped(agent, sub, servers, saved) =>
      StepResult(s.(agent := agent, subLm := sub, servers := servers,
                    modelStore := StoredModels(Some(saved.model), Some(saved.subLm))), ModelSwitched)
    case SwapFailed(e, servers) => StepResult(s.(servers := servers), ShowFailure(e))
    case PromptAborted => StepResult(s, ShowFailure(AbortMessage))
  }

  /** The `/mcp` branch: a failing handler leaves the session as it was, a
      handled command only takes the handler's servers, and an unhandled
      one falls through to the task path with those servers. */
  function McpStep(s: State, input: string, inp: StepInput, c: Collaborators): (r: StepResult)
    ensures var reply := c.mcp(input, s.agent, s.servers);
            && (reply.Failure? ==> r == StepResult(s, ShowFailure(reply.error)))
            && (r.action == McpManaged <==> reply.Success? && reply.value.handled)
            && (r.action == McpManaged ==> r.state == s.(servers := reply.value.servers))
            && (reply.Success? && !reply.value.handled ==>
                  r == TaskStep(s.(servers := reply.value.servers), input, inp, c))
    ensures r.state.agent == s.agent && r.state.subLm == s.subLm && r.state.modelStore == s.modelStore
    ensures SameFrame(s, r.state)
    ensures r.action.Replied? || r.action == Exit || r.action == McpManaged || IsFailure(r.action)
    ensures r.state.history != s.history ==> AnswerRecorded(s.history, input, r)
  {
    match c.mcp(input, s.agent, s.servers)
    case Failure(e) => StepResult(s, ShowFailure(e))
    case Success(reply) =>
      if reply.handled then StepResult(s.(servers := reply.servers), McpManaged)
      else TaskStep(s.(servers := reply.servers), input, inp, c)
  }

  /** The dispatch of a stripped line, in the order of the loop's tests. */
  function Dispatch(s: State, input: string, inp: StepInput, c: Collaborators): (r: StepResult)
    requires ValidAnswers(inp.answers)
    ensures SameFrame(s, r.state)
    ensures r.state.history != s.history ==>
              (r.action == ConversationCleared && r.state.history == []) || AnswerRecorded(s.history, input, r)
    ensures r.action == ModelSwitched ==>
              && r.state.subLm == r.state.agent.subLm
              && r.state.modelStore == StoredModels(Some(r.state.agent.lm), Some(r.state.agent.subLm))
    ensures r.action != ModelSwitched && r.action != ModelUnchanged ==>
              r.state.agent == s.agent && r.state.subLm == s.subLm
  {
    match Classify(input)
    case EmptyLine => StepResult(s, Ignored)
    case QuitCommand => StepResult(s, Exit)
    case HelpCommand => StepResult(s, HelpShown)
    case ClearScreenCommand => StepResult(s, ScreenCleared)
    case KeyCommand => KeyStep(s, inp)
    case ClearHistoryCommand => StepResult(s.(history := []), ConversationCleared)
    case ModelCommand => ModelStep(s, input, inp, c)
    case McpCommand => McpStep(s, input, inp, c)
    case TaskLine => TaskStep(s, input, inp, c)
  }

  /** One pass of the `while True` loop: read a line, strip it, dispatch.
      An interrupted read ends the session untouched. The model label and
      the session parameters never change; the conversation changes only
      by `/c`, which empties it, or by an answer, which appends one turn
      holding the stripped line; only `/model` changes the agent or the
      sub-model label, and a completed swap moves the sub-model label and
      the saved models to the new agent's pair. */
  function Step(s: State, inp: StepInput, c: Collaborators): (r: StepResult)
    requires ValidAnswers(inp.answers)
    ensures LineRead(s, inp).Interrupted? ==> r == StepResult(s, Exit)
    ensures LineRead(s, inp).Line? ==>
              r == Dispatch(s.(slot := LineRead(s, inp).slot), Trim(LineRead(s, inp).text), inp, c)
    ensures SameFrame(s, r.state)
    ensures r.state.history != s.history ==>
              && LineRead(s, inp).Line?
              && ((r.action == ConversationCleared && r.state.history == [])
                  || AnswerRecorded(s.history, Trim(LineRead(s, inp).text), r))
    ensures r.action == ModelSwitched ==>
              && r.state.subLm == r.state.agent.subLm
              && r.state.modelStore == StoredModels(Some(r.state.agent.lm), Some(r.state.agent.subLm))
    ensures r.action != ModelSwitched && r.action != ModelUnchanged ==>
              r.state.agent == s.agent && r.state.subLm == s.subLm
  {
    match ReadUserInput(s.threshold, s.slot, inp.source)
    case Interrupted => StepResult(s, Exit)
    case Line(text, slot) => Dispatch(s.(slot := slot), Trim(text), inp, c)
  }

  /** The line a pass reads, when it reads one. */
  function LineRead(s: State, inp: StepInput): ReadResult {
    ReadUserInput(s.threshold, s.slot, inp.source)
  }

  // ---------------------------------------------------------------------
  // Properties of one pass
  // ---------------------------------------------------------------------

  /** On the task path, the agent is asked with the session's environment
      and the task built from the stripped line; the pass replies exactly
      when the agent answers, and then appends that line and that answer. */
  lemma AnsweredTurn(s: State, inp: StepInput, c: Collaborators)
    requires ValidAnswers(inp.answers)
    requires LineRead(s, inp).Line? && Classify(Trim(LineRead(s, inp).text)) == TaskLine
    ensures var line := Trim(LineRead(s, inp).text);
            var task := TaskFor(s.(slot := LineRead(s, inp).slot), line, inp.now);
            var reply := c.invoke(s.agent, s.env, task);
            var r := Step(s, inp, c);
            && (r.action.Replied? <==> reply.Answered?)
            && (reply.Answered? ==>
                  && r.state.history == s.history + [Turn(line, reply.answer)]
                  && r.action == Replied(task, RenderMarkdown(reply.answer)))
  {
  }

  /** The commands the loop handles itself: the empty line is ignored,
      quit exits, help and clear-screen change nothing, and `/c` empties the
      conversation. */
  lemma DispatchOutcomes(s: State, input: string, inp: StepInput, c: Collaborators)
    requires ValidAnswers(inp.answers)
    ensures var r := Dispatch(s, input, inp, c);
            && (input == "" ==> r == StepResult(s, Ignored))
            && (input == "/q" || input == "exit" ==> r == StepResult(s, Exit))
            && (input == "/help" || input == "/h" || input == "?" ==> r == StepResult(s, HelpShown))
            && (input == "/clear" || input == "/cls" ==> r == StepResult(s, ScreenCleared))
            && (input == "/c" ==> r == StepResult(s.(history := []), ConversationCleared))
  {
    ClassifyCharacterisation(input);
  }

  /** Every other line reaches its handler: the `/key`, `/model` and `/mcp`
      prefixes their own, and every line no command claims the task path. */
  lemma DispatchRoutes(s: State, input: string, inp: StepInput, c: Collaborators)
    requires ValidAnswers(inp.answers)
    ensures var r := Dispatch(s, input, inp, c);
            && ("/key" <= input ==> r == KeyStep(s, inp))
            && ("/model" <= input ==> r == ModelStep(s, input, inp, c))
            && ("/mcp" <= input ==> r == McpStep(s, input, inp, c))
            && (!KnownCommand(input) ==> r == TaskStep(s, input, inp, c))
  {
    ClassifyCharacterisation(input);
    TaskLineIffNoCommand(input);
  }

  /** `/model` keeps the session consistent: a kept model leaves the label
      equal to the already normalized sub model, and a swap installs an
      agent whose configuration names its own normalized models. */
  lemma ModelStepPreservesConsistency(s: State, input: string, inp: StepInput, c: Collaborators)
    requires ValidAnswers(inp.answers)
    requires Consistent(s)
    ensures Consistent(ModelStep(s, input, inp, c).state)
  {
    var h := HandleModelCommand(input, s.agent, s.servers, inp.answers, c.construct, c.register);
    if h.Kept? {
      assert NormalizeModelId(s.agent.subLm) == s.agent.subLm;
    }
  }

  /** Every dispatch keeps the session consistent: only `/model` touches
      the agent or the sub-model label. */
  lemma DispatchPreservesConsistency(s: State, input: string, inp: StepInput, c: Collaborators)
    requires ValidAnswers(inp.answers)
    requires Consistent(s)
    ensures Consistent(Dispatch(s, input, inp, c).state)
  {
    if Classify(input) == ModelCommand {
      ModelStepPreservesConsistency(s, input, inp, c);
    }
  }

  /** Every pass keeps the session consistent, so by induction every
      session that starts consistent stays so. */
  lemma StepPreservesConsistency(s: State, inp: StepInput, c: Collaborators)
    requires ValidAnswers(inp.answers)
    requires Consistent(s)
    ensures Consistent(Step(s, inp, c).state)
  {
    if LineRead(s, inp).Line? {
      DispatchPreservesConsistency(s.(slot := LineRead(s, inp).slot), Trim(LineRead(s, inp).text), inp, c);
    }
  }

  /** Command lines never touch the paste slot: after an empty line, quit,
      help, clear-screen, `/key` or `/c`, the slot is what reading left. */
  lemma CommandsKeepPasteSlot(s: State, inp: StepInput, c: Collaborators)
    requires ValidAnswers(inp.answers)
    requires LineRead(s, inp).Line?
    requires Classify(Trim(LineRead(s, inp).text)) in
               {EmptyLine, QuitCommand, HelpCommand, ClearScreenCommand, KeyCommand, ClearHistoryCommand}
    ensures Step(s, inp, c).state.slot == LineRead(s, inp).slot
  {
  }

  /** The task path always empties the slot, whatever the agent does. */
  lemma TaskLineEmptiesSlot(s: State, inp: StepInput, c: Collaborators)
    requires ValidAnswers(inp.answers)
    requires LineRead(s, inp).Line?
    requires Classify(Trim(LineRead(s, inp).text)) == TaskLine
    ensures Step(s, inp, c).state.slot == None
  {
  }

  /** A failed rebuild after `/model` shows the construction error, as the
      loop's handler does (through `format_auth_error` when it is an
      authentication failure), and leaves the agent, the sub-model label,
      the saved models and every MCP server exactly as they were. */
  lemma ModelSwapFailureKeepsSession(s: State, input: string, inp: StepInput, c: Collaborators)
    requires ValidAnswers(inp.answers)
    requires !PrimaryPromptAborted(inp.answers) && !SubPromptAborted(inp.answers)
    requires input == "/model"
    requires var choice := PrimaryChoice(inp.answers, s.agent.lm);
             choice.Some? &&
             var sub := SubModelChoice(inp.answers.sub, inp.answers.customSub, s.agent.subLm, choice.value);
             var lm := NormalizeModelId(choice.value);
             c.construct(None, map["lm" := SStr(lm), "sub_lm" := SStr(sub)]).Failure?
    ensures var r := Dispatch(s, input, inp, c);
            && r.state.agent == s.agent && r.state.subLm == s.subLm && r.state.servers == s.servers
            && r.state.modelStore == s.modelStore && r.state.history == s.history && r.state.slot == s.slot
            && var choice := PrimaryChoice(inp.answers, s.agent.lm).value;
               var sub := SubModelChoice(inp.answers.sub, inp.answers.customSub, s.agent.subLm, choice);
               var lm := NormalizeModelId(choice);
               r.action == ShowFailure(c.construct(None, map["lm" := SStr(lm), "sub_lm" := SStr(sub)]).error)
  {
    ClassifyCharacterisation(input);
    HandleConstructionFailure(s.agent, s.servers, inp.answers, c.construct, c.register,
                              PrimaryChoice(inp.answers, s.agent.lm).value);
  }

  /** Aborting a custom-id prompt of `/model` reaches the loop's exception
      handler, which shows the abort's empty message and leaves the whole
      session as it was. */
  lemma ModelPromptAbortKeepsSession(s: State, inp: StepInput, c: Collaborators)
    requires ValidAnswers(inp.answers)
    requires PrimaryPromptAborted(inp.answers)
             || (PrimaryChoice(inp.answers, s.agent.lm).Some? && SubPromptAborted(inp.answers))
    ensures Dispatch(s, "/model", inp, c) == StepResult(s, ErrorShown(""))
  {
    ClassifyCharacterisation("/model");
    HandleAbortsOnPrompt("/model", s.agent, s.servers, inp.answers, c.construct, c.register);
    assert !IsSubstring(ProviderMarker, AbortMessage);
  }

  /** Every line starting with `/key` (even `/keyboard`) is a `/key` command. */
  lemma KeyLinesReachKeyStep(s: State, input: string, inp: StepInput, c: Collaborators)
    requires ValidAnswers(inp.answers)
    requires "/key" <= input
    ensures Dispatch(s, input, inp, c) == KeyStep(s, inp)
  {
    ClassifyCharacterisation(input);
  }

  /** `/key clear` (or `unset`, `remove`) forgets the key in the store and
      in the environment, whatever follows it. */
  lemma KeyClearForgetsKey(s: State, inp: StepInput, word: string, rest: seq<string>)
    requires IsClearWord(word)
    requires inp.keyWords == Success(["/key", word] + rest)
    ensures var r := KeyStep(s, inp);
            r.action == KeyCleared && r.state.keyStore.None? && KeyVar !in r.state.env
            && r.state.env == s.env - {KeyVar}
  {
    assert (["/key", word] + rest)[1] == word;
  }

  /** `/key <k>` stores the key and sets the environment variable even when
      it already held another key. */
  lemma KeySetOverridesEnvironment(s: State, inp: StepInput, key: string)
    requires inp.keyWords == Success(["/key", key])
    requires key != "" && !IsClearWord(key)
    ensures var r := KeyStep(s, inp);
            r.action == KeySaved && r.state.keyStore == Some(key) && r.state.env == s.env[KeyVar := key]
  {
  }

  /** A bare `/key` asks for the key and strips the answer before saving. */
  lemma KeyPromptIsStripped(s: State, inp: StepInput, answer: string)
    requires inp.keyWords == Success(["/key"])
    requires inp.keyPrompt == Some(answer) && Trim(answer) != ""
    ensures var r := KeyStep(s, inp);
            r.action == KeySaved && r.state.keyStore == Some(Trim(answer))
  {
  }

  /** Ctrl-C or Ctrl-D at the terminal prompt ends the session untouched. */
  lemma InterruptEndsSession(s: State, inp: StepInput, c: Collaborators)
    requires ValidAnswers(inp.answers)
    requires inp.source == Aborted
    ensures Step(s, inp, c) == StepResult(s, Exit)
  {
  }

  /** As written, a pass at the end of piped input reads an empty line,
      which the loop skips without changing anything: every later pass
      reads the same and the loop never ends. */
  lemma PipedEndOfInputSpinsAsWritten(s: State, inp: StepInput, c: Collaborators)
    requires ValidAnswers(inp.answers)
    ensures var read := ReadUserInputAsWritten(s.threshold, s.slot, Piped(""));
            read == Line("", s.slot)
            && Dispatch(s.(slot := read.slot), Trim(read.text), inp, c) == StepResult(s, Ignored)
  {
    ClassifyCharacterisation("");
  }

  /** With the end of piped input treated like Ctrl-D, the session ends
      there untouched, while a blank piped line is still skipped. */
  lemma PipedEndOfInputEndsSession(s: State, inp: StepInput, c: Collaborators)
    requires ValidAnswers(inp.answers)
    ensures inp.source == Piped("") ==> Step(s, inp, c) == StepResult(s, Exit)
    ensures inp.source == Piped("\n") ==> Step(s, inp, c) == StepResult(s, Ignored)
  {
    if inp.source == Piped("\n") {
      assert RStripNewlines("\n") == RStripNewlines("");
      ClassifyCharacterisation("");
    }
  }

  // ---------------------------------------------------------------------
  // Starting a session
  // ---------------------------------------------------------------------

  /** Python's call of `resolve_startup_models`, which takes no parameters,
      with `argc` positional arguments: any argument raises `TypeError`. */
  function CallResolveStartupModels(argc: nat, env: Env, stored: StoredModels, selected: string)
    : (r: Result<StartupModels, string>)
    ensures r.Success? <==> argc == 0
    ensures r.Success? ==> r.value == ResolveStartupModels(env, stored, selected)
  {
    if argc == 0 then Success(ResolveStartupModels(env, stored, selected))
    else Failure(ArityError(argc))
  }

  const ArityPrefix: string := "resolve_startup_models() takes 0 positional arguments but "
  const AritySuffix: string := " were given"

  /** The `TypeError` message of such a call. */
  function ArityError(argc: nat): string {
    ArityPrefix + NatToString(argc) + AritySuffix
  }

  /** A started session and what startup wrote to the stores. */
  datatype Started = Started(state: State, savedSettings: SavedSettings, modelSaves: seq<ModelPair>,
                             revision: string)

  /** A startup that raised: the message, and what it had already written
      to the stores before raising. */
  datatype StartFailed = StartFailed(message: string, savedSettings: Option<SavedSettings>,
                                     modelSaves: seq<ModelPair>)

  /** What the startup code is given: the keyword arguments, the process
      environment, the settings cache, the cached key, the cached models,
      the model `select_model` returns when asked, and the fixed session
      parameters. `threshold` is `_PASTE_THRESHOLD`, that is
      `ThresholdFromEnv(env).value`, read when the paste module was imported;
      an import that raised never reaches `run_interactive`. */
  datatype Launch = Launch(
    overrides: Overrides, env: Env, settingsCache: Dict, storedKey: Option<string>,
    storedModels: StoredModels, selected: string, threshold: int, historyLimit: int, cwd: string)

  /** Lines 251-336 of `run_interactive`, with `resolve_startup_models`
      called with `argc` arguments. A failing call writes nothing; the
      model saves of `resolve_startup_models` and the settings are written
      before the agent is fetched, so a failing fetch leaves them written. */
  function StartWith(argc: nat, l: Launch, construct: Construct): (r: Result<Started, StartFailed>)
    ensures argc > 0 ==> r == Failure(StartFailed(ArityError(argc), None, []))
    ensures r.Failure? && r.error.savedSettings.None? ==> r.error.modelSaves == []
  {
    var settings := ResolveSettings(l.overrides, l.env, l.settingsCache);
    var env := ApplyStartupEnv(l.env, settings.envTag, l.overrides.apiKey, l.storedKey);
    match CallResolveStartupModels(argc, env, l.storedModels, l.selected)
    case Failure(e) => Failure(StartFailed(e, None, []))
    case Success(models) =>
      var pair := models.pair;
      var config := AgentConfig(pair.model, pair.subLm, settings);
      var revision := Lookup(env, "MODAIC_ENV").GetOr("prod");
      match BuildAgent(construct, Some(revision), pair.model, pair.subLm, config)
      case Failure(e) => Failure(StartFailed(e, Some(SettingsToSave(settings)), models.saves))
      case Success(agent) =>
        var store := if |models.saves| > 0
                     then StoredModels(Some(models.saves[|models.saves| - 1].model),
                                       Some(models.saves[|models.saves| - 1].subLm))
                     else l.storedModels;
        Success(Started(
          State(pair.model, pair.subLm, agent, [], [], None, env, l.storedKey, store,
                l.threshold, l.historyLimit, l.cwd),
          SettingsToSave(settings), models.saves, revision))
  }

  /** Startup as written: line 292 passes the two resolved overrides. */
  function RunInteractiveAsWritten(l: Launch, construct: Construct): (r: Result<Started, StartFailed>)
    ensures r == Failure(StartFailed(ArityError(2), None, []))
  {
    StartWith(2, l, construct)
  }

  /** Whatever the configuration, the session as written never starts: it
      stops with this `TypeError`, before writing anything. */
  lemma AsWrittenNeverStarts(l: Launch, construct: Construct)
    ensures RunInteractiveAsWritten(l, construct) ==
            Failure(StartFailed(ArityPrefix + "2" + AritySuffix, None, []))
  {
    assert NatToString(2) == "2";
  }

  /** Startup with `resolve_startup_models()` called as declared. A started
      session is consistent and has an empty conversation, no servers and
      an empty paste slot. */
  function RunInteractive(l: Launch, construct: Construct): (r: Result<Started, StartFailed>)
    ensures r.Success? ==> r.value.state.history == [] && r.value.state.servers == []
                           && r.value.state.slot.None?
    ensures r.Success? ==> Consistent(r.value.state)
  {
    StartWith(0, l, construct)
  }

  /** The corrected startup fails only when the agent cannot be built; the
      agent gets the resolved models and settings, is fetched at the
      environment's revision (default `prod`), and both labels show the
      resolved models. A failed fetch still leaves the settings and the
      model saves written. */
  lemma RunInteractiveStarts(l: Launch, construct: Construct)
    ensures var settings := ResolveSettings(l.overrides, l.env, l.settingsCache);
            var env := ApplyStartupEnv(l.env, settings.envTag, l.overrides.apiKey, l.storedKey);
            var models := ResolveStartupModels(env, l.storedModels, l.selected);
            var config := AgentConfig(models.pair.model, models.pair.subLm, settings);
            var revision := Lookup(env, "MODAIC_ENV").GetOr("prod");
            var r := RunInteractive(l, construct);
            && (r.Success? <==> construct(Some(revision), config).Success?)
            && (r.Success? ==>
                  && r.value.state.model == models.pair.model
                  && r.value.state.subLm == models.pair.subLm
                  && r.value.state.agent.config == config
                  && r.value.state.agent.instance == construct(Some(revision), config).value
                  && r.value.revision == revision
                  && r.value.state.env == env
                  && r.value.savedSettings == SettingsToSave(settings)
                  && r.value.modelSaves == models.saves)
            && (r.Failure? ==>
                  && r.error.message == construct(Some(revision), config).error
                  && r.error.savedSettings == Some(SettingsToSave(settings))
                  && r.error.modelSaves == models.saves)
  {
  }
}
