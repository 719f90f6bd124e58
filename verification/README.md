# microcode interactive session — a Dafny model

This project models the core of `microcode`, an interactive command-line coding assistant. The core is the single-session engine of `run_interactive`. It covers:

- **Startup:** settings are resolved from keyword arguments, the environment and a settings cache; the OpenRouter key and `MODAIC_ENV` are applied; the startup models are resolved; and the agent configuration is built.
- **The read-dispatch loop:** reading a line with large-paste capture, the slash commands (`/q`, `/help`, `/clear`, `/key`, `/c`, `/model`, `/mcp`), the task text sent to the agent with its history window and pasted content, and the exception handler with its authentication messages.
- **Model management:** the model catalog, menu construction, `select_model`, `resolve_startup_models` and the `/model` hot-swap with MCP re-registration.
- **Display:** `render_markdown`, the `**bold**` to ANSI rewrite.

One pass of the loop is the pure function `Session.Step`, with the end of piped input corrected as described under "## Findings". It maps the session state and the outside world's answers for that pass to a new state and an `Action`, which stands for what the terminal shows. Python's `None` is modelled as `Option.None` and a raised exception as `Result.Failure`. The agent, agent construction, MCP registration and the MCP command handler are function-typed parameters (`Session.Collaborators`). Menu answers, the hidden-prompt answer, the result of `shlex.split`, the formatted time, the line source and the process environment are plain inputs.

Modules, in dependency order:

- `Wrappers`: `Option`, `Result`, and `FirstSome`, the precedence chains written with `or` and `if x is None`.
- `Values`: Python scalars, dicts, `dict.get`, truthiness and the process environment.
- `Strings`: `strip()`, `in`, `split`/`join`, `str(n)` and `int()`.
- `Display`: `render_markdown`.
- `Paste`: the paste-capture state machine of `microcode/utils/paste.py`.
- `Models`: `microcode/utils/models.py`.
- `Config`: settings resolution, environment updates and the agent configuration in `run_interactive`.
- `Commands`: `format_auth_error`, `short_cwd`, line classification and `/key`.
- `Task`: the history window and the task text.
- `Session`: one pass of the loop and startup.

## Model

| member | source | states |
|---|---|---|
| Strings.Trim | microcode/main.py:341 | The stripped line has no leading or trailing whitespace, is no longer than the input, and equals the input when it was already stripped |
| Strings.TrimIsInfix | microcode/main.py:341 | `strip()` removes only whitespace and only from the two ends: the result is a contiguous middle part of the line, flanked by whitespace |
| Strings.TrimIdempotent | microcode/main.py:341 | Stripping an already stripped line changes nothing |
| Strings.Split | microcode/main.py:75 | `split(sep)` never returns an empty list, no part contains the separator, and joining the parts with the separator gives the input back |
| Strings.JoinSplit | microcode/main.py:78 | Splitting a join of separator-free parts gives the parts back, so `split` and `join` are inverse |
| Strings.ParseNatToString | microcode/main.py:95 | `int()` reads back what `str()` writes, for non-negative and negative numbers |
| Strings.ParseInt | microcode/main.py:95 | `int()` succeeds exactly on optionally signed decimal text; plain digits and a leading `+` read as the decimal value of the digits, a leading minus as its negation |
| Config.ReadIntEnv | microcode/main.py:81-97 | An unset variable reads as None; a set variable reads as an integer exactly when its text is an optionally signed decimal, and then as what `int()` makes of that text |
| Config.ReadIntEnvRoundTrip | microcode/main.py:81-97 | A variable holding the decimal text of an integer reads as that integer |
| Config.ResolveLimit | microcode/main.py:266-277 | An iteration, token or output limit is the keyword argument when given, else the parsed environment variable when it parses, else the cached setting (possibly None) |
| Config.LimitPrecedence | microcode/main.py:266-277 | Each limit is the first present value of the chain keyword argument, environment variable, settings cache |
| Config.ResolveEnvTag | microcode/main.py:255-256 | The environment tag is the argument when given, else a non-empty `MODAIC_ENV`, else `MICROCODE_ENV` |
| Config.ResolveSettings | microcode/main.py:251-281 | Each of the three limits of the resolved settings is resolved independently by its own variable and cache key |
| Config.SettingsPrecedence | microcode/main.py:251-256 | Model and sub model fall back from argument to `MICROCODE_MODEL` / `MICROCODE_SUB_LM`; the tag is the first of argument, non-empty `MODAIC_ENV`, `MICROCODE_ENV` |
| Config.SwitchPrecedence | microcode/main.py:258-281 | The API base is argument, else `MICROCODE_API_BASE`, else cache; verbose is argument, else (`MICROCODE_VERBOSE` == "1") when set, else the truthiness of the cached value, else False |
| Config.AgentConfig | microcode/main.py:294-302 | The agent configuration always holds lm, sub_lm and verbose; holds each limit exactly when it is known; holds api_base exactly when it is truthy; and holds no other key |
| Config.SettingsSurviveRestart | microcode/main.py:258-310 | Settings saved at one launch and read back from the cache at the next launch, given no arguments and no `MICROCODE_*` variables, resolve to the same limits, API base and verbose flag |
| Config.SavedMatchesAgentConfig | microcode/main.py:294-310 | The cache write and the agent configuration agree on every limit and on verbose; they agree on the API base unless it is falsy, which is saved but not configured |
| Config.ApplyStartupEnv | microcode/main.py:283-290 | Only `MODAIC_ENV` and `OPENROUTER_API_KEY` can change; the tag wins when non-empty; the key is a non-empty existing key, else the non-empty argument, else the non-empty cached key |
| Config.SetEnvTag | microcode/main.py:283-284 | A non-empty tag is written to `MODAIC_ENV` and nothing else changes |
| Config.SetApiKey | microcode/main.py:285-290 | A non-empty existing key is never overwritten; the argument comes before the cached key; no other variable changes |
| Commands.FormatAuthError | microcode/main.py:38-62 | The "no credentials" text appears exactly when both the provider and the cookie markers occur; the "authentication failed" text exactly when the provider and authentication markers occur without the cookie marker; otherwise None |
| Commands.NoCredentialsWins | microcode/main.py:49-56 | A message with the provider marker followed by the cookie marker always yields the "no credentials" text, whatever surrounds them |
| Commands.ShortCwd | microcode/main.py:65-78 | A path with at most two separator-delimited parts is kept; a longer one becomes exactly its last two parts |
| Commands.ShortCwdIsSuffix | microcode/main.py:65-78 | The shortened path is always a suffix of the full path |
| Commands.ShortCwdIdempotent | microcode/main.py:65-78 | The shortened path has at most two parts and shortening it again changes nothing |
| Commands.ClassifyCharacterisation | microcode/main.py:343-408 | Each kind of line is characterised on its own, as an if-and-only-if: the empty line, the quit, help and clear words, a `/key` prefix, `/c`, a `/model` prefix and a `/mcp` prefix |
| Commands.KeyCommandOutcome | microcode/main.py:357-382 | `/key` removes the key exactly when its first argument is clear, unset or remove; aborts exactly when there is no argument and the prompt was interrupted; a stored key is non-empty, and is either the unstripped argument or the stripped prompt answer; an empty key is rejected |
| Display.CloseFrom | microcode/utils/display.py:25 | The lazy search for the closing `**` returns a match of the pattern, and returns none only when there is no match at all |
| Display.MatchAt | microcode/utils/display.py:25 | The match anchored at a position is a real match, and its absence means no match exists there |
| Display.MatchUnique | microcode/utils/display.py:25 | At a given start the lazy group admits only one match, the shortest |
| Display.RenderWithoutStars | microcode/utils/display.py:22-25 | Text without `**` is returned unchanged |
| Display.RenderWithoutMatch | microcode/utils/display.py:22-25 | Text where the pattern matches at no position is returned unchanged |
| Display.RenderSpan | microcode/utils/display.py:22-25 | `**x**` becomes BOLD x RESET, followed by the rendering of the rest, when x is non-empty, has no newline, and no closing `**` can start inside it: `x[1..]` followed by one `*` holds no `**` (the first character of x is never a closing candidate) |
| Display.PlainSpanCloses | microcode/utils/display.py:25 | A span with no `**` that does not end in `*` meets that closing condition |
| Display.RenderStarredSpans | microcode/utils/display.py:25 | Stars may sit inside a bold span: `*****` renders a bold `*`, and `****a**` a bold `**a` |
| Display.RenderLiteralHead | microcode/utils/display.py:22-25 | A character that does not open `**` is copied, and rendering continues after it |
| Display.RenderNewlineExample | microcode/utils/display.py:25 | A span across a newline is not bold (the `.` of the pattern does not match a newline) |
| Display.RenderFourStarsExample | microcode/utils/display.py:25 | `****` is not rewritten, because the group must be non-empty |
| Display.RenderDanglingStars | microcode/utils/display.py:25 | Plain text followed by a dangling `**` is left alone |
| Display.RenderLazy | microcode/utils/display.py:25 | `**a**b**` makes only `a` bold and leaves `b**` as written: matching is lazy and goes left to right |
| Display.RenderTwoSpans | microcode/utils/display.py:25 | Two bold spans separated by a space render as two separate bold runs |
| Paste.ThresholdFromEnv | microcode/utils/paste.py:13 | The threshold is 2000 when the variable is unset, and otherwise its parsed value (None for the import-time ValueError) |
| Paste.Placeholder | microcode/utils/paste.py:53 | The placeholder text matches the placeholder pattern and has no surrounding whitespace, so the `strip()` of the loop keeps it intact |
| Paste.PlaceholderRecordsLength | microcode/utils/paste.py:53 | The digits in the placeholder parse back to the pasted length |
| Paste.HandleBracketedPaste | microcode/utils/paste.py:49-58 | A paste is captured exactly when the threshold is positive and the paste is longer; a captured paste stores the text and inserts its placeholder; any other paste clears the slot and is inserted verbatim |
| Paste.SlotAfterEvents | microcode/utils/paste.py:49-58 | After editing, the slot is decided by the last bracketed paste alone, last write wins, and it is untouched when there was no paste |
| Paste.Submit | microcode/utils/paste.py:89-96 | A submitted buffer longer than a positive threshold is replaced by its placeholder and stored; otherwise it is returned as typed with the slot unchanged |
| Paste.RStripNewlines | microcode/utils/paste.py:81 | The piped line is what was read minus its trailing newlines: a prefix that never ends in a newline, with only newlines cut |
| Paste.ReadUserInput | microcode/utils/paste.py:75-99 | An abort interrupts and a terminal read always yields a line; a piped read interrupts exactly at the end of input (the correction recorded under "## Findings"), and otherwise yields what was read minus only its trailing newlines, with the slot untouched |
| Paste.DisabledStaysIdle | microcode/utils/paste.py:52 | With capture disabled, an empty slot stays empty whatever is read |
| Paste.ConsumePasteForInput | microcode/utils/paste.py:102-112 | The slot is always emptied; the payload is returned exactly when a record with a non-empty placeholder exists and the line contains that placeholder |
| Paste.ConsumeIsOneShot | microcode/utils/paste.py:102-112 | A stored paste is handed out at most once: a second consume returns nothing |
| Paste.CapturedLineIsConsumed | microcode/utils/paste.py:91-112 | A submitted line that was captured, once stripped, hands its own paste to the consumer |
| Paste.ConsumeWithPlaceholder | microcode/utils/paste.py:106-110 | Any line that embeds the placeholder receives the stored record |
| Paste.FifteenCharScenario | microcode/utils/paste.py:91-94 | With threshold 10, a 15-character submission becomes `[pasted 15+ chars]` and is stored under that placeholder |
| Models.NormalizeModelId | microcode/utils/models.py:26-28 | A normalized id always carries the `openrouter/` prefix; an id that already has it is unchanged, and any other id gets the prefix prepended |
| Models.NormalizeIdempotent | microcode/utils/models.py:26-28 | Normalizing twice is normalizing once, and the original id is a suffix of the result |
| Models.BuildModelOptions | microcode/utils/models.py:65-83 | The menu is the eight catalog entries in order, followed by one sentinel per enabled flag; each enabled sentinel is offered |
| Models.OptionsOrder | microcode/utils/models.py:65-83 | Each sentinel is offered exactly when its flag is set, and the sentinels come in the order primary, custom, keep |
| Models.SelectModel | microcode/utils/models.py:86-119 | No rounds means still asking; a dismissed menu cancels; a catalog pick is returned as is; an aborted custom prompt aborts; a non-empty custom id is returned stripped; a selected model is never empty |
| Models.CustomMenuIds | microcode/utils/models.py:93 | The startup menu offers only catalog ids and the custom sentinel |
| Models.SelectRetriesEmptyCustom | microcode/utils/models.py:100-110 | An empty custom id is rejected and the selection asks again |
| Models.SelectModelSkipsRetries | microcode/utils/models.py:89-110 | Any run of empty custom ids is skipped: the selection is the one the rounds after them make |
| Models.ResolveStartupModels | microcode/utils/models.py:122-155 | Both startup models are normalized; the primary model is a non-empty `MODEL`, else the non-empty cached model, else the selected model |
| Models.StartupSubPrecedence | microcode/utils/models.py:142-155 | The sub model is a non-empty `SUB_LM`, else the cached sub model (the selection when one was made), else the primary model; the result is normalized |
| Models.StartupSaves | microcode/utils/models.py:133-153 | A fresh selection saves (selected, selected); a cached model without a cached sub model saves the resolved pair; otherwise nothing is saved |
| Models.BuildAgent | microcode/utils/models.py:251-253 | The agent is built exactly when construction succeeds, holding the constructed program and the requested lm, sub model and configuration; a failure carries the construction error; a configuration naming both models yields an agent whose configuration agrees with its models |
| Models.FirstFailure | microcode/utils/models.py:254-255 | Registration succeeds for every server before the returned index and fails at it, if it lies within the list |
| Models.Reregister | microcode/utils/models.py:254-255 | Re-registration keeps every server's name and handle and replaces its tools with the fresh registration; when a registration raises, the servers before it are updated and the rest are untouched |
| Models.SubModelChoice | microcode/utils/models.py:224-249 | A dismissed menu or keep keeps the current sub model; primary takes the new model; an empty custom id keeps the current one; otherwise the chosen id; always normalized |
| Models.PrimaryChoice | microcode/utils/models.py:177-213 | A dismissed menu means no swap; keep keeps the current lm; an empty custom id means no swap; otherwise the chosen id, normalized |
| Models.HandleModelCommand | microcode/utils/models.py:158-261 | Only the exact line `/model` is handled; keeping returns the normalized current sub model; a swap installs an agent whose configuration names its own normalized models and saves exactly that pair; the server list keeps its length |
| Models.HandleKeepsWhenNoPrimary | microcode/utils/models.py:183-202 | `/model` keeps the agent exactly when the primary menu is dismissed or an empty custom id is entered |
| Models.HandleAbortsOnPrompt | microcode/utils/models.py:193-198 | An aborted custom-id prompt ends `/model` before anything is rebuilt: the primary prompt always, the sub-model prompt once a new primary model was chosen (microcode/utils/models.py:233-237 is the second prompt) |
| Models.HandleConstructionFailure | microcode/utils/models.py:251-253 | When the rebuilt agent cannot be constructed, the command fails with the construction error itself and the MCP servers are left as they were |
| Models.HandleSwapped | microcode/utils/models.py:251-261 | A swap rebuilds the agent from only lm and sub_lm, installs the instance the construction returned, re-registers every server against the new agent, and saves the chosen pair |
| Models.HandleRebuildOutcome | microcode/utils/models.py:251-261 | Once the agent is built, every server registering gives exactly the swap to that agent with the re-registered servers and the chosen pair; a raising registration gives exactly the failure with the servers as the loop left them |
| Models.CustomThenPrimaryScenario | microcode/utils/models.py:193-261 | A custom `foo/bar` followed by "use primary" switches both models to `openrouter/foo/bar` |
| Task.SliceFrom | microcode/main.py:413 | `xs[start:]` is a suffix of `xs` whose length follows Python's slicing rules for a negative or non-negative start |
| Task.HistoryWindow | microcode/main.py:413 | The history window is a suffix of the conversation |
| Task.HistoryWindowSize | microcode/main.py:413 | A positive limit keeps the last min(limit, length) turns; a limit of 0 keeps the whole conversation, because `-0` is `0` |
| Task.TurnsTextContains | microcode/main.py:413-414 | Every turn of the window is quoted verbatim in the conversation text |
| Task.TaskStartsWithInput | microcode/main.py:420 | The task sent to the agent starts with `Current task: `, the line and a newline |
| Task.TaskCarriesPaste | microcode/main.py:416-418 | A consumed paste's full text is part of the task |
| Task.TaskQuotesWindow | microcode/main.py:410-420 | Every turn of the history window appears in the task |
| Session.ShowFailure | microcode/main.py:438-447 | An exception shows the fixed authentication text exactly when it is an authentication failure, and otherwise its own message |
| Session.KeyStep | microcode/main.py:357-382 | `/key` changes only the key store and the environment; a shlex failure is shown; clearing happens exactly on a clear word and removes both; saving happens exactly when the outcome stores a key, which is then stored and exported; a rejected key or an aborted prompt changes nothing |
| Session.TaskStep | microcode/main.py:410-432 | The task built from the line, the session and the consumed paste is sent with the current environment; the pass replies exactly when the agent answers, appending (line, answer) and showing the answer rendered; a raised error is shown, an interrupt exits, and neither touches the history; the slot is always emptied and nothing else changes |
| Session.ModelStep | microcode/main.py:389-404 | A line that only starts with `/model` goes to the task path; a kept model only renormalizes the sub label; a swap installs the new agent, its servers and its saved pair; a failed rebuild shows the error and keeps only the servers the re-registration left; an aborted prompt shows the empty abort message and changes nothing |
| Session.McpStep | microcode/main.py:406-408 | A raising handler leaves the session as it was; a handled command only takes the handler's servers; an unhandled one goes to the task path with them; the agent, sub-model label and model store never change |
| Session.Dispatch | microcode/main.py:343-432 | The history changes only by `/c`, which empties it, or by one answered turn; only the `/model` outcomes change the agent or the sub-model label |
| Session.DispatchOutcomes | microcode/main.py:343-387 | The commands the loop handles itself: the empty line is ignored, quit exits, help and clear-screen change nothing, and `/c` empties the history |
| Session.DispatchRoutes | microcode/main.py:357-410 | The `/key`, `/model` and `/mcp` prefixes reach their handlers, and every line no command claims is a task |
| Commands.TaskLineIffNoCommand | microcode/main.py:343-410 | A line reaches the agent exactly when it is none of the command words and has none of the `/key`, `/model` and `/mcp` prefixes |
| Session.Step | microcode/main.py:338-447 | An interrupted read exits untouched; a line read is stripped and dispatched with the slot reading left; one pass never changes the model label or the fixed parameters; the history changes only after a line was read, and only by `/c` or one answered turn of the stripped line; only `/model` changes the agent or sub-model label, and a switch keeps the sub-model label and model store in step with the agent |
| Session.StepPreservesConsistency | microcode/main.py:338-404 | Every pass keeps the sub-model label equal to the agent's sub model, both agent models prefixed, and the agent configuration naming them |
| Session.DispatchPreservesConsistency | microcode/main.py:343-404 | Every dispatched line keeps the session consistent |
| Session.ModelStepPreservesConsistency | microcode/utils/models.py:183-261 | `/model` keeps the session consistent: a kept model returns the already normalized sub model, and a swap builds the agent from the normalized pair |
| Session.AnsweredTurn | microcode/main.py:410-432 | On a task line the agent gets the session environment and the task built from the stripped line and its paste; the pass replies exactly when the agent answers, appends (line, answer) and shows that answer rendered |
| Session.TaskLineEmptiesSlot | microcode/main.py:416 | A task line always leaves the paste slot empty |
| Session.CommandsKeepPasteSlot | microcode/main.py:343-387 | Empty lines, quit, help, clear-screen, `/key` and `/c` leave the paste slot as reading left it |
| Session.ModelSwapFailureKeepsSession | microcode/main.py:389-404 | A failed rebuild after `/model` keeps the agent, labels, servers, stores, history and slot, and shows the construction error through the loop's handler (`format_auth_error` text for an authentication failure, otherwise `Error: …`) |
| Session.ModelPromptAbortKeepsSession | microcode/main.py:438-447 | An aborted custom-id prompt in `/model` reaches the exception handler, shows `Error: ` with the empty message, and leaves the session as it was |
| Session.KeyLinesReachKeyStep | microcode/main.py:357 | Every line starting with `/key` is handled as a key command |
| Session.KeyClearForgetsKey | microcode/main.py:361-365 | `/key clear` (or unset, remove) forgets the stored key and removes only the key variable from the environment |
| Session.KeySetOverridesEnvironment | microcode/main.py:379-380 | `/key K` stores K and overwrites the key variable, even when one was already set |
| Session.KeyPromptIsStripped | microcode/main.py:367-373 | A key entered at the hidden prompt is stored stripped |
| Session.InterruptEndsSession | microcode/main.py:435-436 | Ctrl-C or Ctrl-D at the terminal prompt (re-raised as KeyboardInterrupt, microcode/utils/paste.py:98-99) ends the session with the state unchanged |
| Paste.ReadUserInputAsWritten | microcode/utils/paste.py:78-81 | As written, a piped read always yields a line, a prefix of what was read; at the end of input, where `readline` returns "", that line is empty |
| Session.PipedEndOfInputSpinsAsWritten | microcode/utils/paste.py:81 | As written, the pass at the end of piped input reads an empty line that the loop skips with nothing changed, so the loop never ends |
| Session.PipedEndOfInputEndsSession | microcode/utils/paste.py:81 | With end of piped input treated like Ctrl-D, the session ends there untouched, while a blank piped line is still skipped |
| Session.CallResolveStartupModels | microcode/main.py:292 | Calling `resolve_startup_models` succeeds exactly when it is given no arguments |
| Session.StartWith | microcode/main.py:251-336 | A call with positional arguments fails with the arity TypeError before writing anything; any failure that wrote no settings wrote no model saves either |
| Session.RunInteractiveAsWritten | microcode/main.py:292 | Startup as written always fails with the TypeError of a two-argument call, having written nothing |
| Session.AsWrittenNeverStarts | microcode/main.py:292 | The failure message names the two positional arguments given |
| Session.RunInteractive | microcode/main.py:251-336 | A started session is consistent and has no history, no MCP servers and an empty paste slot |
| Session.RunInteractiveStarts | microcode/main.py:251-316 | Startup with the corrected call succeeds exactly when the agent can be constructed at revision `MODAIC_ENV` (default "prod"); it pins the labels, agent configuration, environment, saved settings and model saves; a failed construction reports its error with the settings and model saves already written |

## Left out

- Terminal output is not modelled: the banner, status line, help text, separator, colours and click/prompt_toolkit rendering. Each pass reports its outcome as an `Action` instead.
- The `debug.txt` write of each task (microcode/main.py:422-423) is not modelled: `Session.TaskStep` assumes the write succeeds. A failing write (for example in a read-only working directory) would reach the loop's handler after the paste was consumed and before the agent is asked, showing `Error: …` instead of running the task.
- The current time is the parameter `now`, already formatted, rather than a clock read.
- `os.getcwd()` is the fixed parameter `cwd` of the session.
- `shlex.split` is an input: its word list or its `ValueError` message.
- The prompt_toolkit session internals are reduced to a sequence of typed keys and bracketed-paste events: multiline editing, key bindings, the lexer highlighting and cursor position are left out. Text is always inserted at the end of the buffer.
- The `click.prompt` fallback when no prompt session exists is left out. The module imports prompt_toolkit unconditionally, so the fallback is unreachable.
- Paste.IsPlaceholderLine: accepts only ASCII digits, while `\d` in the source pattern also accepts other Unicode decimal digits.
- Strings.ParseInt: accepts an optional sign and ASCII digits only. Python's `int()` also allows surrounding whitespace, underscores between digits and non-ASCII digits.
- The menus (Textual apps) and `click.prompt` are left out as interfaces. Their answers are inputs (`Models.ModelAnswers`, `Models.SelectRound`, `Launch.selected`).
- Models.ValidAnswers: requires the primary `/model` answer to be one of the offered ids. A different id would make `next(...)` raise StopIteration in the source, and that path is not modelled.
- `select_model` is modelled on its own (`Models.SelectModel`). At startup its answer is the parameter `selected`, which `resolve_startup_models` uses only when it has to ask. A startup selection that is cancelled (`exit(1)`) or whose custom prompt is aborted (click's `Abort` escapes `run_interactive`) is therefore not modelled there.
- The agent (`AutoProgram.from_precompiled`, `agent(task=...)`), MCP registration and the `/mcp` handler are opaque collaborators. Their internals are not part of this model. The agent is given the process environment it runs with, so a key set by `/key` reaches later tasks.
- The traceback printed for an unexpected exception is not modelled; the `Action` carries the message only.
- A handler that partly changes `mcp_servers` before raising is also not modelled: its servers are kept only when it returns.
- The cache module's file I/O is not modelled. The key store and model store are session state, and the settings cache is the input dict `settingsCache`.
- `load_settings_config` and `save_settings_config` are imported from the cache module but are not defined in the cache file of this repository. They are modelled as reading a dict and writing `SavedSettings`. `Config.SavedAsCache` assumes the saved file holds the five keyword arguments under the keys the loader reads (`max_iters`, `max_tokens`, `max_output_chars`, `api_base`, `verbose`).
- The `cli` entry point is not modelled. `--lm`, `--sub-lm` and `--api-key` default to None (microcode/main.py:453-459), but the limits, API base, verbose and environment options have non-None defaults (microcode/main.py:460-479). So from the command line the environment and cache fallbacks of those settings are never reached. `Config.Overrides` keeps every argument optional, as `run_interactive` allows.
- Only the loop's `strip()` uses Python's full whitespace set. Lines read from a pipe only lose trailing `\n` characters before that.
- Integers are unbounded, as in Python, so no width is modelled.
- Session.Step: reads through the corrected `Paste.ReadUserInput`, so the end of piped input ends the session there. The source instead skips the empty line forever; `Session.PipedEndOfInputSpinsAsWritten` states that behaviour (see "## Findings").
- `Launch.threshold` is taken as given. It stands for `_PASTE_THRESHOLD`, which is `Paste.ThresholdFromEnv` of the environment at import time (microcode/utils/paste.py:13). An import that raises never reaches `run_interactive`, so that failure is not part of the startup model.

Behaviours that follow the code where a prose description of the tool says otherwise:

- `/key K` overwrites `OPENROUTER_API_KEY` even when it is already set (`Session.KeySetOverridesEnvironment`).
- Any line that starts with `/key`, such as `/keyboard`, is a key command.
- A line starting with `/model` other than `/model` itself (for example `/modelx`) is not handled by `handle_model_command` and goes on to the `/mcp` test and the task path.
- After `/model`, the model label shown in the status line is never updated; only the sub-model label is. `Session.Step` keeps the model label fixed.
- The agent rebuilt by `/model` gets a configuration with only `lm` and `sub_lm`, which drops the limits, verbose and the API base. It also passes no `rev` (microcode/utils/models.py:251-253), while startup fetches at `rev=MODAIC_ENV` (microcode/main.py:312-316). `Models.HandleSwapped` states this: the agent is built with revision `None`.
- `render_markdown` turns the whole of `**x**` into a bold x when x is non-empty, has no newline, and no `**` starts at any position of x after its first character, the closing star included (`Display.RenderSpan`); when such a `**` exists, the lazy group closes there instead. So `*****` gives a bold `*` and `****a**` a bold `**a`, while `**a***` ends the lazy group before the last star, giving a bold `a` followed by `*`.

## Findings

| source | as written | input that shows it | evidently intended | confidence | as-written member | corrected member |
|---|---|---|---|---|---|---|
| microcode/utils/paste.py:81 | with piped input, `sys.stdin.readline()` returns "" at the end of input; the loop strips it, finds it empty and continues, so it reads "" again forever | a pipe that ends without `/q`, e.g. `echo hi \| microcode` after the agent answers | end the session at the end of piped input, as the terminal path does for Ctrl-D | not executed | Session.PipedEndOfInputSpinsAsWritten | Session.PipedEndOfInputEndsSession |
| microcode/main.py:292 | `resolve_startup_models(model, sub_lm)` passes two positional arguments to a function that takes none (microcode/utils/models.py:122), so every launch raises TypeError before the agent is built | any launch of the interactive session | call `resolve_startup_models()` with no arguments; it reads `MODEL` and `SUB_LM` itself | not executed | Session.RunInteractiveAsWritten | Session.RunInteractiveStarts |
