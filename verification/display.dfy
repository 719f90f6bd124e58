/** `render_markdown` from microcode/utils/display.py: every match of the
    regular expression `\*\*(.+?)\*\*` is replaced by the captured text
    wrapped in the ANSI bold and reset sequences. `re.sub` scans left to
    right, takes the leftmost match, makes the lazy group as short as
    possible, never lets `.` cross a newline, and resumes after each match. */
module Display {
  import opened Wrappers

  const Bold: string := "\U{1B}[1m"
  const Reset: string := "\U{1B}[0m"

  /** `**` starts at index `k`. */
  predicate StarsAt(s: string, k: int) {
    0 <= k && k + 1 < |s| && s[k] == '*' && s[k + 1] == '*'
  }

  predicate NoNewline(s: string) {
    forall k :: 0 <= k < |s| ==> s[k] != '\n'
  }

  /** The regex matches at the start of `s` with the closing `**` at `j`:
      an opening `**`, a non-empty newline-free group `s[2..j]`, the closing
      `**`, and no earlier closing candidate (the group is lazy). */
  ghost predicate IsMatch(s: string, j: int) {
    && StarsAt(s, 0)
    && 3 <= j && StarsAt(s, j)
    && NoNewline(s[2..j])
    && forall k :: 3 <= k < j ==> !StarsAt(s, k)
  }

  /** Search for the closing `**` from index `j`, knowing `s[2..j]` is
      newline-free and has no closing candidate at or after index 3. */
  function CloseFrom(s: string, j: nat): (r: Option<nat>)
    requires StarsAt(s, 0) && 3 <= j <= |s|
    requires NoNewline(s[2..j])
    requires forall k :: 3 <= k < j ==> !StarsAt(s, k)
    ensures r.Some? ==> IsMatch(s, r.value)
    ensures r.None? ==> forall m :: !IsMatch(s, m)
    decreases |s| - j
  {
    if StarsAt(s, j) then Some(j)
    else if j < |s| && s[j] != '\n' then
      assert s[2..j + 1] == s[2..j] + [s[j]];
      CloseFrom(s, j + 1)
    else if j < |s| then
      // s[j] is a newline: every later closing candidate would cross it
      assert forall m :: j < m <= |s| ==> !NoNewline(s[2..m]) by {
        forall m | j < m <= |s| ensures !NoNewline(s[2..m]) {
          assert s[2..m][j - 2] == s[j];
        }
      }
      None
    else None
  }

  /** The match anchored at the start of `s`, if any. */
  function MatchAt(s: string): (r: Option<nat>)
    ensures r.Some? ==> IsMatch(s, r.value)
    ensures r.None? ==> forall j :: !IsMatch(s, j)
  {
    if StarsAt(s, 0) && |s| >= 3 && s[2] != '\n' then
      assert s[2..3] == [s[2]];
      CloseFrom(s, 3)
    else
      assert forall j :: 3 <= j <= |s| ==> s[2..j][0] == s[2];
      None
  }

  /** There is at most one match at a given start: the lazy group picks
      the first closing candidate. */
  lemma MatchUnique(s: string, j1: int, j2: int)
    requires IsMatch(s, j1) && IsMatch(s, j2)
    ensures j1 == j2
  {
  }

  /** `re.sub(r"\*\*(.+?)\*\*", BOLD + r"\1" + RESET, text)`. */
  function RenderMarkdown(text: string): (r: string)
    decreases |text|
  {
    if |text| == 0 then ""
    else match MatchAt(text)
      case Some(j) => Bold + text[2..j] + Reset + RenderMarkdown(text[j + 2..])
      case None => [text[0]] + RenderMarkdown(text[1..])
  }

  predicate NoStars(s: string) {
    forall k :: 0 <= k < |s| ==> !StarsAt(s, k)
  }

  /** Text containing no `**` is returned unchanged. */
  lemma {:induction false} RenderWithoutStars(text: string)
    requires NoStars(text)
    ensures RenderMarkdown(text) == text
    decreases |text|
  {
    if |text| > 0 {
      assert MatchAt(text).None?;
      assert forall k :: !StarsAt(text[1..], k) by {
        forall k ensures !StarsAt(text[1..], k) {
          assert !StarsAt(text, k + 1);
        }
      }
      RenderWithoutStars(text[1..]);
    }
  }

  /** The markdown source form `**x**`. */
  function Emphasis(x: string): string {
    "**" + x + "**"
  }

  /** `**x**` becomes `BOLD x RESET` when `x` is non-empty, newline-free,
      and no closing `**` can start inside it: the first character of `x`
      is never a closing candidate, so the condition is that `x[1..]`
      followed by the closing star holds no `**`. `*****` therefore
      renders a bold `*`, and `****a**` a bold `**a`; rendering then
      continues after the span. */
  lemma RenderSpan(x: string, rest: string)
    requires |x| >= 1 && NoNewline(x) && NoStars(x[1..] + "*")
    ensures RenderMarkdown(Emphasis(x) + rest) == Bold + x + Reset + RenderMarkdown(rest)
  {
    var s := Emphasis(x) + rest;
    var j := |x| + 2;
    var y := x[1..] + "*";
    assert s[2..j] == x;
    assert StarsAt(s, j);
    forall k | 3 <= k < j ensures !StarsAt(s, k) {
      assert s[k] == y[k - 3];
      assert s[k + 1] == y[k - 2];
      assert !StarsAt(y, k - 3);
    }
    assert IsMatch(s, j);
    assert s[j + 2..] == rest;
  }

  /** Where the pattern matches at no position, the text is unchanged. */
  lemma {:induction false} RenderWithoutMatch(text: string)
    requires forall k :: 0 <= k < |text| ==> MatchAt(text[k..]).None?
    ensures RenderMarkdown(text) == text
    decreases |text|
  {
    if |text| > 0 {
      assert text[0..] == text;
      forall k | 0 <= k < |text[1..]| ensures MatchAt(text[1..][k..]).None? {
        assert text[1..][k..] == text[k + 1..];
      }
      RenderWithoutMatch(text[1..]);
    }
  }

  /** A match never crosses a newline: `**a\nb**` is left unchanged. */
  lemma RenderNewlineExample()
    ensures RenderMarkdown("**a\nb**") == "**a\nb**"
  {
    var s := "**a\nb**";
    forall k | 0 <= k < |s| ensures MatchAt(s[k..]).None? {
      if k > 0 {
        assert !StarsAt(s[k..], 0) || |s[k..]| < 3;
      }
    }
    RenderWithoutMatch(s);
  }

  /** The group must be non-empty: `****` is left unchanged. */
  lemma RenderFourStarsExample()
    ensures RenderMarkdown("****") == "****"
  {
    var s := "****";
    assert forall k :: 0 <= k < |s| ==> MatchAt(s[k..]).None?;
    RenderWithoutMatch(s);
  }

  /** Literal text `y` followed by a dangling `**` is left alone when `y`
      holds no `**` and does not end in `*`. */
  lemma RenderDanglingStars(y: string)
    requires |y| >= 1 && NoStars(y) && y[|y| - 1] != '*'
    ensures RenderMarkdown(y + "**") == y + "**"
  {
    var t := y + "**";
    forall k | 0 <= k < |t| ensures MatchAt(t[k..]).None? {
      if k + 1 < |y| {
        assert !StarsAt(y, k);
      } else if k + 1 == |y| {
        assert t[k..][1] == '*' && t[k..][0] == y[k];
      }
    }
    RenderWithoutMatch(t);
  }

  /** The simpler sufficient condition: a span with no `**` that does not
      end in `*` meets the closing condition of `RenderSpan`. */
  lemma PlainSpanCloses(x: string)
    requires |x| >= 1 && NoStars(x) && x[|x| - 1] != '*'
    ensures NoStars(x[1..] + "*")
  {
    var y := x[1..] + "*";
    forall k | 0 <= k < |y| ensures !StarsAt(y, k) {
      if k + 2 < |y| {
        assert !StarsAt(x, k + 1);
      } else if k + 2 == |y| {
        assert y[k] == x[|x| - 1];
      }
    }
  }

  /** Stars may sit inside the span: `*****` renders a bold `*`, and
      `****a**` a bold `**a`. */
  lemma RenderStarredSpans()
    ensures RenderMarkdown("*****") == Bold + "*" + Reset
    ensures RenderMarkdown("****a**") == Bold + "**a" + Reset
  {
    assert NoStars(("*")[1..] + "*");
    assert Emphasis("*") + "" == "*****";
    RenderSpan("*", "");
    var y := ("**a")[1..] + "*";
    assert y == "*a*";
    assert !StarsAt(y, 0) && !StarsAt(y, 1);
    assert NoStars(y);
    assert Emphasis("**a") + "" == "****a**";
    RenderSpan("**a", "");
  }

  /** Matching is lazy and left to right: `**a**b**` renders as a bold `a`
      followed by the literal `b**`. */
  lemma RenderLazy(x: string, y: string)
    requires |x| >= 1 && NoNewline(x) && NoStars(x) && x[|x| - 1] != '*'
    requires |y| >= 1 && NoStars(y) && y[|y| - 1] != '*'
    ensures RenderMarkdown(Emphasis(x) + (y + "**")) == Bold + x + Reset + (y + "**")
  {
    PlainSpanCloses(x);
    RenderSpan(x, y + "**");
    RenderDanglingStars(y);
  }

  /** A character that does not open `**` is copied and rendering moves on. */
  lemma RenderLiteralHead(text: string)
    requires |text| >= 1 && !StarsAt(text, 0)
    ensures RenderMarkdown(text) == [text[0]] + RenderMarkdown(text[1..])
  {
  }

  /** Two spans separated by a space render as two separate bold runs
      (`**a** **b**`), not as one span from the first `**` to the last. */
  lemma RenderTwoSpans(x: string, y: string)
    requires |x| >= 1 && NoNewline(x) && NoStars(x) && x[|x| - 1] != '*'
    requires |y| >= 1 && NoNewline(y) && NoStars(y) && y[|y| - 1] != '*'
    ensures RenderMarkdown(Emphasis(x) + (" " + Emphasis(y)))
            == Bold + x + Reset + (" " + (Bold + y + Reset))
  {
    var t := " " + Emphasis(y);
    PlainSpanCloses(x);
    PlainSpanCloses(y);
    RenderSpan(x, t);
    RenderLiteralHead(t);
    assert t[1..] == Emphasis(y) + "";
    RenderSpan(y, "");
  }
}
