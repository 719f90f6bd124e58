/** Paste capture (microcode/utils/paste.py). The module-global
    `_LAST_PASTE` becomes an explicit one-slot `Slot` threaded through the
    functions below: at most one record exists at any time. */
module Paste {
  import opened Wrappers
  import opened Strings
  import opened Values

  /** The record `{"text": ..., "placeholder": ...}` kept by `_store_paste`. */
  datatype PasteRecord = PasteRecord(text: string, placeholder: string)

  /** `_LAST_PASTE`: empty (Idle) or holding one record (Armed). */
  type Slot = Option<PasteRecord>

  /** The value `MICROCODE_PASTE_THRESHOLD` defaults to. */
  const DefaultThreshold: int := 2000

  /** `_PASTE_THRESHOLD`, read once at import time:
      `int(os.getenv("MICROCODE_PASTE_THRESHOLD", "2000"))`. `None` is the
      `ValueError` an unparseable value raises while importing. */
  function ThresholdFromEnv(env: Env): (r: Option<int>)
    ensures "MICROCODE_PASTE_THRESHOLD" !in env ==> r == Some(DefaultThreshold)
    ensures "MICROCODE_PASTE_THRESHOLD" in env ==> r == ParseInt(env["MICROCODE_PASTE_THRESHOLD"])
  {
    var text := Lookup(env, "MICROCODE_PASTE_THRESHOLD").GetOr("2000");
    assert "MICROCODE_PASTE_THRESHOLD" !in env ==> ParseInt(text) == Some(DefaultThreshold) by {
      ParseNatToString(2000);
      assert NatToString(2000) == "2000";
    }
    ParseInt(text)
  }

  /** A text is captured exactly when capture is enabled (threshold > 0)
      and the text is strictly longer than the threshold. */
  predicate Captures(threshold: int, text: string) {
    threshold > 0 && |text| > threshold
  }

  const PlaceholderPrefix: string := "[pasted "
  const PlaceholderSuffix: string := "+ chars]"

  /** `f"[pasted {len(text)}+ chars]"`. */
  function Placeholder(n: nat): (p: string)
    ensures IsPlaceholderLine(p)
    ensures Stripped(p)
  {
    var digits := NatToString(n);
    var p := PlaceholderPrefix + digits + PlaceholderSuffix;
    assert p[|PlaceholderPrefix|..|p| - |PlaceholderSuffix|] == digits;
    assert p[|p| - |PlaceholderSuffix|..] == PlaceholderSuffix;
    p
  }

  /** `_PLACEHOLDER_RE.match(line)` for `^\[pasted \d+\+ chars\]$`; the `$`
      also accepts one trailing newline. */
  predicate IsPlaceholderLine(line: string) {
    var body := if |line| > 0 && line[|line| - 1] == '\n' then line[..|line| - 1] else line;
    && |body| > |PlaceholderPrefix| + |PlaceholderSuffix|
    && PlaceholderPrefix <= body
    && body[|body| - |PlaceholderSuffix|..] == PlaceholderSuffix
    && AllDigits(body[|PlaceholderPrefix|..|body| - |PlaceholderSuffix|])
  }

  /** The placeholder records the length it stands for: its digits parse
      back to that length. */
  lemma PlaceholderRecordsLength(n: nat)
    ensures var p := Placeholder(n);
            ParseInt(p[|PlaceholderPrefix|..|p| - |PlaceholderSuffix|]) == Some(n)
  {
    var p := Placeholder(n);
    assert p[|PlaceholderPrefix|..|p| - |PlaceholderSuffix|] == NatToString(n);
    ParseNatToString(n);
  }

  // ---------------------------------------------------------------------
  // Editing the prompt buffer
  // ---------------------------------------------------------------------

  /** What reaches the prompt buffer: ordinary typing (including newlines
      entered with Ctrl-J) or one bracketed-paste event. */
  datatype KeyEvent = Typed(keys: string) | Pasted(data: string)

  /** The prompt buffer being edited and the paste slot. */
  datatype Editing = Editing(buffer: string, slot: Slot)

  /** `_handle_bracketed_paste`: a paste over the threshold overwrites the
      slot and inserts the placeholder; any other paste clears the slot and
      inserts the text verbatim. */
  function HandleBracketedPaste(threshold: int, e: Editing, pasted: string): (r: Editing)
    ensures r.slot.Some? <==> Captures(threshold, pasted)
    ensures r.slot.Some? ==> r.slot.value.text == pasted && r.slot.value.placeholder == Placeholder(|pasted|)
                             && r.buffer == e.buffer + r.slot.value.placeholder
    ensures r.slot.None? ==> r.buffer == e.buffer + pasted
  {
    if threshold > 0 && |pasted| > threshold then
      var placeholder := Placeholder(|pasted|);
      Editing(e.buffer + placeholder, Some(PasteRecord(pasted, placeholder)))
    else
      Editing(e.buffer + pasted, None)
  }

  /** Apply the key events in order (text is inserted at the end of the buffer). */
  function ApplyEvents(threshold: int, e: Editing, events: seq<KeyEvent>): Editing
    decreases |events|
  {
    if |events| == 0 then e
    else
      var next := match events[0]
        case Typed(keys) => e.(buffer := e.buffer + keys)
        case Pasted(data) => HandleBracketedPaste(threshold, e, data);
      ApplyEvents(threshold, next, events[1..])
  }

  /** The data of the last bracketed paste among the events, if any. */
  function LastPaste(events: seq<KeyEvent>): Option<string>
    decreases |events|
  {
    if |events| == 0 then None
    else if LastPaste(events[1..]).Some? then LastPaste(events[1..])
    else if events[0].Pasted? then Some(events[0].data)
    else None
  }

  /** Last write wins: after editing, the slot is decided by the last
      bracketed paste alone (captured or cleared), and is untouched when
      there was no paste. */
  lemma {:induction false} SlotAfterEvents(threshold: int, e: Editing, events: seq<KeyEvent>)
    ensures var r := ApplyEvents(threshold, e, events);
            match LastPaste(events)
            case None => r.slot == e.slot
            case Some(d) =>
              if Captures(threshold, d) then r.slot == Some(PasteRecord(d, Placeholder(|d|)))
              else r.slot == None
    decreases |events|
  {
    if |events| > 0 {
      var next := match events[0]
        case Typed(keys) => e.(buffer := e.buffer + keys)
        case Pasted(data) => HandleBracketedPaste(threshold, e, data);
      SlotAfterEvents(threshold, next, events[1..]);
    }
  }

  // ---------------------------------------------------------------------
  // read_user_input
  // ---------------------------------------------------------------------

  /** Where a line comes from: an interactive terminal (a sequence of key
      events, then Enter), a pipe (`sys.stdin.readline()`), or an abort
      (Ctrl-C / Ctrl-D, re-raised as `KeyboardInterrupt`). */
  datatype Source = Terminal(events: seq<KeyEvent>) | Piped(raw: string) | Aborted

  datatype ReadResult = Line(text: string, slot: Slot) | Interrupted

  /** The check `read_user_input` applies to the submitted buffer: an
      over-threshold text is stored and replaced by its placeholder;
      otherwise the text is returned and the slot is left alone. */
  function Submit(threshold: int, slot: Slot, text: string): (r: ReadResult)
    ensures r.Line?
    ensures Captures(threshold, text) ==>
              r.slot == Some(PasteRecord(text, r.text)) && r.text == Placeholder(|text|)
    ensures !Captures(threshold, text) ==> r.text == text && r.slot == slot
  {
    if threshold > 0 && |text| > threshold then
      var placeholder := Placeholder(|text|);
      Line(placeholder, Some(PasteRecord(text, placeholder)))
    else Line(text, slot)
  }

  /** `s.rstrip("\n")`. */
  function RStripNewlines(s: string): (r: string)
    ensures r <= s
    ensures |r| == 0 || r[|r| - 1] != '\n'
    ensures forall k :: |r| <= k < |s| ==> s[k] == '\n'
    decreases |s|
  {
    if |s| > 0 && s[|s| - 1] == '\n' then RStripNewlines(s[..|s| - 1]) else s
  }

  /** `read_user_input`, corrected at the end of piped input. A piped line
      bypasses paste capture entirely; `raw` is what `readline` returned, so
      it is empty only at the end of input. The source returns that as an
      empty line (`ReadUserInputAsWritten`); here it ends the session, as
      Ctrl-D does at a terminal. */
  function ReadUserInput(threshold: int, slot: Slot, src: Source): (r: ReadResult)
    ensures src.Aborted? ==> r.Interrupted?
    ensures src.Terminal? ==> r.Line?
    ensures src.Piped? ==> (r.Interrupted? <==> src.raw == "")
    ensures src.Piped? && r.Line? ==>
              && r.slot == slot && r.text <= src.raw
              && forall k :: |r.text| <= k < |src.raw| ==> src.raw[k] == '\n'
  {
    match src
    case Terminal(events) =>
      var e := ApplyEvents(threshold, Editing("", slot), events);
      Submit(threshold, e.slot, e.buffer)
    case Piped(raw) => if raw == "" then Interrupted else Line(RStripNewlines(raw), slot)
    case Aborted => Interrupted
  }

  /** `read_user_input` as written: the end of piped input reads as an
      empty line, like a blank line does. */
  function ReadUserInputAsWritten(threshold: int, slot: Slot, src: Source): (r: ReadResult)
    ensures src.Piped? ==> r.Line? && r.slot == slot && r.text <= src.raw
    ensures src == Piped("") ==> r == Line("", slot)
    ensures !src.Piped? || src.raw != "" ==> r == ReadUserInput(threshold, slot, src)
  {
    match src
    case Piped(raw) => Line(RStripNewlines(raw), slot)
    case _ => ReadUserInput(threshold, slot, src)
  }

  /** With capture disabled (threshold <= 0) the state machine never leaves
      Idle: an empty slot stays empty whatever is read. */
  lemma {:induction false} DisabledStaysIdle(threshold: int, src: Source)
    requires threshold <= 0
    ensures var r := ReadUserInput(threshold, None, src);
            r.Line? ==> r.slot == None
  {
    if src.Terminal? {
      SlotAfterEvents(threshold, Editing("", None), src.events);
    }
  }

  // ---------------------------------------------------------------------
  // consume_paste_for_input
  // ---------------------------------------------------------------------

  datatype Consumed = Consumed(payload: Option<PasteRecord>, slot: Slot)

  /** `consume_paste_for_input`: the slot is always emptied; the stored
      record is handed out exactly when its (non-empty) placeholder occurs
      in the input, and is discarded otherwise. */
  function ConsumePasteForInput(slot: Slot, input: string): (r: Consumed)
    ensures r.slot == None
    ensures r.payload.Some? <==> slot.Some? && slot.value.placeholder != ""
                                 && IsSubstring(slot.value.placeholder, input)
    ensures r.payload.Some? ==> r.payload == slot
  {
    match slot
    case None => Consumed(None, None)
    case Some(rec) =>
      if rec.placeholder != "" && Contains(input, rec.placeholder) then Consumed(Some(rec), None)
      else Consumed(None, None)
  }

  /** One shot: whatever the first consumer got, a second consume gets nothing. */
  lemma ConsumeIsOneShot(slot: Slot, first: string, second: string)
    ensures ConsumePasteForInput(ConsumePasteForInput(slot, first).slot, second).payload == None
  {
  }

  /** A captured line, once stripped by the session loop, still carries its
      placeholder, so the task that submits it receives the original text. */
  lemma CapturedLineIsConsumed(threshold: int, slot: Slot, text: string)
    requires Captures(threshold, text)
    ensures var r := Submit(threshold, slot, text);
            ConsumePasteForInput(r.slot, Trim(r.text)).payload
              == Some(PasteRecord(text, Placeholder(|text|)))
  {
    var p := Placeholder(|text|);
    assert p <= p[0..];
  }

  /** Any later line containing the stored placeholder receives the record,
      e.g. `"run " + placeholder`. */
  lemma ConsumeWithPlaceholder(rec: PasteRecord, before: string, after: string)
    requires rec.placeholder != ""
    ensures ConsumePasteForInput(Some(rec), before + rec.placeholder + after).payload == Some(rec)
  {
    SubstringOfConcat(before, rec.placeholder, after);
  }

  /** The scenario of a 15-character paste with threshold 10: the visible
      line is `[pasted 15+ chars]` and the stored text is the paste. */
  lemma FifteenCharScenario(text: string)
    requires |text| == 15
    ensures Submit(10, None, text) == Line("[pasted 15+ chars]", Some(PasteRecord(text, "[pasted 15+ chars]")))
  {
    assert NatToString(15) == "15";
    assert Placeholder(15) == PlaceholderPrefix + "15" + PlaceholderSuffix;
    assert Placeholder(|text|) == "[pasted 15+ chars]";
  }
}
