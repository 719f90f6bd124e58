/** The pure helpers of the session loop in microcode/main.py: how an
    exception message is shown, how the working directory is shortened, how
    a stripped input line is classified and what `/key` decides. */
module Commands {
  import opened Wrappers
  import opened Strings

  // ---------------------------------------------------------------------
  // format_auth_error
  // ---------------------------------------------------------------------

  const ProviderMarker: string := "OpenrouterException"
  const NoCookieMarker: string := "No cookie auth credentials found"
  const AuthMarker: string := "AuthenticationError"

  const NoCredentialsMessage: string :=
    "OpenRouter authentication failed: no credentials found. Set `OPENROUTER_API_KEY` or run `/key` to cache it."
  const AuthFailedMessage: string :=
    "OpenRouter authentication failed. Set `OPENROUTER_API_KEY` or run `/key` to cache it."

  /** `format_auth_error(err)` on `str(err)`: the missing-credentials text
      when the provider and no-cookie markers both occur, else the generic
      text when the authentication and provider markers both occur, else
      `None` (not an authentication problem). */
  function FormatAuthError(message: string): (r: Option<string>)
    ensures r == Some(NoCredentialsMessage) <==>
              IsSubstring(ProviderMarker, message) && IsSubstring(NoCookieMarker, message)
    ensures r == Some(AuthFailedMessage) <==>
              !IsSubstring(NoCookieMarker, message)
              && IsSubstring(AuthMarker, message) && IsSubstring(ProviderMarker, message)
    ensures r.None? <==> !IsSubstring(ProviderMarker, message)
                         || (!IsSubstring(NoCookieMarker, message) && !IsSubstring(AuthMarker, message))
  {
    var provider := Contains(message, ProviderMarker);
    if provider && Contains(message, NoCookieMarker) then Some(NoCredentialsMessage)
    else if Contains(message, AuthMarker) && provider then Some(AuthFailedMessage)
    else None
  }

  /** A provider error that also reports missing cookie credentials gets
      the specific text, whatever else the message says. */
  lemma NoCredentialsWins(a: string, b: string, c: string)
    ensures FormatAuthError(a + ProviderMarker + b + NoCookieMarker + c) == Some(NoCredentialsMessage)
  {
    SubstringOfConcat(a, ProviderMarker, b);
    SubstringExtends(ProviderMarker, a + ProviderMarker + b, NoCookieMarker);
    SubstringExtends(ProviderMarker, a + ProviderMarker + b + NoCookieMarker, c);
    SubstringOfConcat(a + ProviderMarker + b, NoCookieMarker, c);
  }

  // ---------------------------------------------------------------------
  // short_cwd
  // ---------------------------------------------------------------------

  /** `os.sep` on the platforms the tool targets. */
  const Sep: char := '/'

  /** `short_cwd`: a path of at most two components is returned as is;
      otherwise only its last two components are kept. */
  function ShortCwd(path: string): (r: string)
    ensures |Split(path, Sep)| <= 2 ==> r == path
    ensures |Split(path, Sep)| > 2 ==> Split(r, Sep) == Split(path, Sep)[|Split(path, Sep)| - 2..]
  {
    var parts := Split(path, Sep);
    if |parts| <= 2 then path
    else
      var last := parts[|parts| - 2..];
      JoinSplit(last, Sep);
      Join(last, Sep)
  }

  /** The shortened path is the tail of the original: the last two
      components with the separator between them. */
  lemma ShortCwdIsSuffix(path: string)
    ensures exists pre :: path == pre + ShortCwd(path)
  {
    var parts := Split(path, Sep);
    if |parts| <= 2 {
      assert path == "" + ShortCwd(path);
    } else {
      JoinSuffix(parts, Sep, |parts| - 2);
      assert ShortCwd(path) == Join(parts[|parts| - 2..], Sep);
      var pre :| Join(parts, Sep) == pre + Join(parts[|parts| - 2..], Sep);
      assert path == pre + ShortCwd(path);
    }
  }

  /** Shortening twice is shortening once, and the result never has more
      than two components. */
  lemma ShortCwdIdempotent(path: string)
    ensures |Split(ShortCwd(path), Sep)| <= 2
    ensures ShortCwd(ShortCwd(path)) == ShortCwd(path)
  {
  }

  // ---------------------------------------------------------------------
  // Classifying a stripped input line
  // ---------------------------------------------------------------------

  datatype Command =
    | EmptyLine
    | QuitCommand
    | HelpCommand
    | ClearScreenCommand
    | KeyCommand
    | ClearHistoryCommand
    | ModelCommand
    | McpCommand
    | TaskLine

  /** The dispatch order of the session loop: exact words first, then the
      `/key` prefix, the exact `/c`, and the `/model` and `/mcp` prefixes. */
  function Classify(input: string): Command {
    if input == "" then EmptyLine
    else if input == "/q" || input == "exit" then QuitCommand
    else if input == "/help" || input == "/h" || input == "?" then HelpCommand
    else if input == "/clear" || input == "/cls" then ClearScreenCommand
    else if "/key" <= input then KeyCommand
    else if input == "/c" then ClearHistoryCommand
    else if "/model" <= input then ModelCommand
    else if "/mcp" <= input then McpCommand
    else TaskLine
  }

  /** No exact word tested before the `/key` prefix starts with `/key`,
      `/model` or `/mcp`, and those three prefixes exclude each other, so the
      order of the tests never hides a class: each is characterised alone. */
  lemma ClassifyCharacterisation(input: string)
    ensures Classify(input) == EmptyLine <==> input == ""
    ensures Classify(input) == QuitCommand <==> input == "/q" || input == "exit"
    ensures Classify(input) == HelpCommand <==> input == "/help" || input == "/h" || input == "?"
    ensures Classify(input) == ClearScreenCommand <==> input == "/clear" || input == "/cls"
    ensures Classify(input) == KeyCommand <==> "/key" <= input
    ensures Classify(input) == ClearHistoryCommand <==> input == "/c"
    ensures Classify(input) == ModelCommand <==> "/model" <= input
    ensures Classify(input) == McpCommand <==> "/mcp" <= input
  {
    DistinctPrefixes("/key", "/help", input, 1);
    DistinctPrefixes("/key", "/clear", input, 1);
    DistinctPrefixes("/key", "/cls", input, 1);
    DistinctPrefixes("/key", "/model", input, 1);
    DistinctPrefixes("/key", "/mcp", input, 1);
    DistinctPrefixes("/model", "/mcp", input, 2);
    assert "/h"[1] != "/c"[1];
  }

  /** A line one of the loop's commands claims: an exact command word or
      one of the `/key`, `/model` and `/mcp` prefixes. */
  predicate KnownCommand(input: string) {
    || input in {"", "/q", "exit", "/help", "/h", "?", "/clear", "/cls", "/c"}
    || "/key" <= input || "/model" <= input || "/mcp" <= input
  }

  /** A line reaches the agent exactly when no command claims it. */
  lemma TaskLineIffNoCommand(input: string)
    ensures Classify(input) == TaskLine <==> !KnownCommand(input)
  {
    ClassifyCharacterisation(input);
  }

  /** Two prefixes that differ at some position cannot both start `s`. */
  lemma DistinctPrefixes(p: string, q: string, s: string, k: nat)
    requires k < |p| && k < |q| && p[k] != q[k]
    ensures !(p <= s && q <= s)
  {
  }

  // ---------------------------------------------------------------------
  // /key
  // ---------------------------------------------------------------------

  predicate IsClearWord(w: string) {
    w == "clear" || w == "unset" || w == "remove"
  }

  /** What `/key` decides. `KeyPromptAborted` is Ctrl-C or end of input at
      the hidden prompt, which ends the session. */
  datatype KeyOutcome = KeyRemoved | KeyRejected | KeyStored(key: string) | KeyPromptAborted

  /** `/key` after `shlex.split`: the first argument, when it is a clear
      word, removes the key; otherwise the first argument, or the stripped
      answer to the hidden prompt when there is none, is the key, and an
      empty key is rejected. The argument itself is not stripped. */
  function KeyCommandOutcome(words: seq<string>, prompt: Option<string>): (r: KeyOutcome)
    ensures r == KeyRemoved <==> |words| >= 2 && IsClearWord(words[1])
    ensures r == KeyPromptAborted <==> |words| < 2 && prompt.None?
    ensures r.KeyStored? ==> r.key != ""
    ensures r.KeyStored? && |words| >= 2 ==> r.key == words[1]
    ensures r.KeyStored? && |words| < 2 ==> prompt.Some? && r.key == Trim(prompt.value)
    ensures r == KeyRejected <==> (if |words| >= 2 then words[1] == ""
                                   else prompt.Some? && Trim(prompt.value) == "")
  {
    var args := if |words| >= 1 then words[1..] else [];
    if |args| > 0 && IsClearWord(args[0]) then KeyRemoved
    else if |args| > 0 then
      if args[0] == "" then KeyRejected else KeyStored(args[0])
    else match prompt
      case None => KeyPromptAborted
      case Some(answer) =>
        var key := Trim(answer);
        if key == "" then KeyRejected else KeyStored(key)
  }
}
