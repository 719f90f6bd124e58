/** The text sent to the agent for a task line (microcode/main.py, the end
    of the session loop): the task, the working directory and time, the
    recent conversation and any pasted content. */
module Task {
  import opened Wrappers
  import opened Strings
  import opened Paste

  /** One entry of `history`: `{"user": ..., "assistant": ...}`. */
  datatype Turn = Turn(user: string, assistant: string)

  /** Python's `xs[start:]` for any integer `start`: a negative start
      counts from the end, and both are clamped to the sequence. */
  function SliceFrom<T>(xs: seq<T>, start: int): (r: seq<T>)
    ensures |r| <= |xs| && r == xs[|xs| - |r|..]
    ensures start >= 0 ==> |r| == if start >= |xs| then 0 else |xs| - start
    ensures start < 0 ==> |r| == if -start >= |xs| then |xs| else -start
  {
    if start >= 0 then (if start >= |xs| then [] else xs[start..])
    else if -start >= |xs| then xs
    else xs[|xs| + start..]
  }

  /** `history[-history_limit:]`. */
  function HistoryWindow(history: seq<Turn>, limit: int): (r: seq<Turn>)
    ensures |r| <= |history| && r == history[|history| - |r|..]
  {
    SliceFrom(history, -limit)
  }

  /** For a positive limit the window is the last `min(limit, |history|)`
      turns; a limit of zero (`-0 == 0`) keeps the whole history. */
  lemma HistoryWindowSize(history: seq<Turn>, limit: int)
    ensures limit >= 1 ==> |HistoryWindow(history, limit)| == if limit < |history| then limit else |history|
    ensures limit == 0 ==> HistoryWindow(history, limit) == history
  {
  }

  function TurnText(t: Turn): string {
    "User: " + t.user + "\nAssistant: " + t.assistant + "\n\n"
  }

  /** The turns of the window, oldest first, each as a `User:` /
      `Assistant:` block. */
  function TurnsText(turns: seq<Turn>): string
    decreases |turns|
  {
    if |turns| == 0 then "" else TurnsText(turns[..|turns| - 1]) + TurnText(turns[|turns| - 1])
  }

  /** Every turn of the window appears in the transcript, in place. */
  lemma {:induction false} TurnsTextContains(turns: seq<Turn>, i: nat)
    requires i < |turns|
    ensures exists pre, post :: TurnsText(turns) == pre + TurnText(turns[i]) + post
    decreases |turns|
  {
    var last := |turns| - 1;
    if i == last {
      assert TurnsText(turns) == TurnsText(turns[..last]) + TurnText(turns[i]) + "";
    } else {
      TurnsTextContains(turns[..last], i);
      var pre, post :| TurnsText(turns[..last]) == pre + TurnText(turns[..last][i]) + post;
      assert TurnsText(turns) == pre + TurnText(turns[i]) + (post + TurnText(turns[last]));
    }
  }

  /** The `context` string. */
  function Context(cwd: string, now: string, history: seq<Turn>, limit: int, payload: Option<PasteRecord>)
    : string
  {
    "Working directory: " + cwd + "\nTime: " + now + "\n\n"
    + (if |history| > 0 then "Previous conversation:\n" + TurnsText(HistoryWindow(history, limit)) else "")
    + (if payload.Some? then "\nPasted content:\n" + payload.value.text + "\n" else "")
  }

  /** `f"Current task: {user_input}\n{context}\n"`. */
  function TaskText(input: string, cwd: string, now: string, history: seq<Turn>, limit: int,
                    payload: Option<PasteRecord>): string
  {
    "Current task: " + input + "\n" + Context(cwd, now, history, limit, payload) + "\n"
  }

  /** The task opens with the input line itself. */
  lemma TaskStartsWithInput(input: string, cwd: string, now: string, history: seq<Turn>, limit: int,
                            payload: Option<PasteRecord>)
    ensures "Current task: " + input + "\n" <= TaskText(input, cwd, now, history, limit, payload)
  {
  }

  /** The agent sees the original pasted text, not just its placeholder. */
  lemma TaskCarriesPaste(input: string, cwd: string, now: string, history: seq<Turn>, limit: int,
                         rec: PasteRecord)
    ensures IsSubstring(rec.text, TaskText(input, cwd, now, history, limit, Some(rec)))
  {
    var header := "Working directory: " + cwd + "\nTime: " + now + "\n\n";
    var quoted := if |history| > 0 then "Previous conversation:\n" + TurnsText(HistoryWindow(history, limit)) else "";
    var pasted := "\nPasted content:\n" + rec.text + "\n";
    SubstringOfConcat("\nPasted content:\n", rec.text, "\n");
    SubstringWidens(rec.text, header + quoted, pasted, "");
    assert Context(cwd, now, history, limit, Some(rec)) == header + quoted + pasted + "";
    SubstringWidens(rec.text, "Current task: " + input + "\n", Context(cwd, now, history, limit, Some(rec)), "\n");
  }

  /** Every turn inside the window is quoted in the task. */
  lemma TaskQuotesWindow(input: string, cwd: string, now: string, history: seq<Turn>, limit: int,
                         payload: Option<PasteRecord>, i: nat)
    requires i < |HistoryWindow(history, limit)|
    ensures IsSubstring(TurnText(HistoryWindow(history, limit)[i]),
                        TaskText(input, cwd, now, history, limit, payload))
  {
    var w := HistoryWindow(history, limit);
    TurnsTextContains(w, i);
    var pre, post :| TurnsText(w) == pre + TurnText(w[i]) + post;
    SubstringOfConcat(pre, TurnText(w[i]), post);
    assert |history| > 0;
    var quoted := "Previous conversation:\n" + TurnsText(w);
    SubstringWidens(TurnText(w[i]), "Previous conversation:\n", TurnsText(w), "");
    assert quoted == "Previous conversation:\n" + TurnsText(w) + "";
    var header := "Working directory: " + cwd + "\nTime: " + now + "\n\n";
    var pasted := if payload.Some? then "\nPasted content:\n" + payload.value.text + "\n" else "";
    SubstringWidens(TurnText(w[i]), header, quoted, pasted);
    assert Context(cwd, now, history, limit, payload) == header + quoted + pasted;
    SubstringWidens(TurnText(w[i]), "Current task: " + input + "\n", Context(cwd, now, history, limit, payload), "\n");
  }
}
