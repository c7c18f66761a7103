/** The transcript view of an opencode run: each parsed transcript line becomes zero, one or two
    timeline entries. JSON decoding and the summaries of tool input and output are inputs here. */
module Humanize {
  import opened Common

  const MAX_LOG_TEXT: nat := 240
  const MAX_PROSE: nat := 4000
  const I64_LIMIT: nat := 0x8000_0000_0000_0000

  datatype ToolState = ToolState(status: string, input: string, output: string,
                                 start: Option<int>, end: Option<int>)

  /** A parsed line, by its `type`; `prose` is already trimmed. */
  datatype Line =
    | TextLine(prose: string)
    | ToolLine(part: Option<(string, Option<ToolState>)>)
    | FinishLine(reason: string)
    | ErrorLine(name: string, message: string)
    | OtherLine

  datatype Kind = Text | ToolUse | ToolResult | Event

  datatype Entry = Entry(kind: Kind, tool: string, text: string, durationMs: Option<int>)

  /** At most `max` characters, the last of them an ellipsis when something was cut. */
  function Truncate(s: string, max: nat): (out: string)
    ensures |out| <= max
    ensures |s| <= max ==> out == s
    ensures |s| > max > 1 ==> |out| == max && out[..max - 1] == s[..max - 1] && out[max - 1] == '\U{2026}'
  {
    if |s| <= max then s
    else if max <= 1 then s[..max]
    else s[..max - 1] + "\U{2026}"
  }

  /** Cutting twice is cutting once, to the smaller bound. */
  lemma TruncateTwice(s: string, m: nat, n: nat)
    ensures Truncate(Truncate(s, m), n) == Truncate(s, if m < n then m else n)
  {
  }

  /** The tool's own interval, when both ends are known, it does not overflow and is not negative. */
  function Duration(state: Option<ToolState>): (d: Option<int>)
    ensures d.Some? <==> && state.Some? && state.value.start.Some? && state.value.end.Some?
                         && 0 <= state.value.end.value - state.value.start.value < I64_LIMIT
    ensures d.Some? ==> state.value.start.value + d.value == state.value.end.value
  {
    if state.None? || state.value.start.None? || state.value.end.None? then None
    else
      var ms := state.value.end.value - state.value.start.value;
      if 0 <= ms < I64_LIMIT then Some(ms) else None
  }

  predicate Completed(line: Line) {
    && line.ToolLine? && line.part.Some?
    && line.part.value.1.Some? && line.part.value.1.value.status == "completed"
  }

  predicate Stops(line: Line) {
    line.FinishLine? && line.reason == "stop"
  }

  function EventEntry(text: string): Entry {
    Entry(Event, "", text, None)
  }

  const TURN_COMPLETED := EventEntry("turn completed")

  function ErrorLabel(name: string, message: string): string {
    if message != "" then "turn failed: " + name + ": " + message
    else if name != "" then "turn failed: " + name
    else "turn failed"
  }

  function ToolEntries(tool: string, state: Option<ToolState>): seq<Entry> {
    var input := if state.Some? then state.value.input else "";
    [Entry(ToolUse, tool, Truncate(input, MAX_LOG_TEXT), Duration(state))]
    + if state.Some? && state.value.status == "completed" then
        [Entry(ToolResult, "",
               if state.value.output == "" then "(ok)" else Truncate(state.value.output, MAX_LOG_TEXT), None)]
      else []
  }

  function HumanizeLine(line: Line): seq<Entry> {
    match line
    case TextLine(prose) => if prose == "" then [] else [Entry(Text, "", Truncate(prose, MAX_PROSE), None)]
    case ToolLine(part) => if part.None? then [] else ToolEntries(part.value.0, part.value.1)
    case FinishLine(reason) => if reason == "stop" then [TURN_COMPLETED] else []
    case ErrorLine(name, message) => [EventEntry(Truncate(ErrorLabel(name, message), MAX_LOG_TEXT))]
    case OtherLine => []
  }

  /** The timeline of a transcript. */
  function Timeline(lines: seq<Line>): seq<Entry> {
    if lines == [] then [] else Timeline(lines[..|lines| - 1]) + HumanizeLine(lines[|lines| - 1])
  }

  function CountLines(lines: seq<Line>, p: Line -> bool): nat {
    if lines == [] then 0
    else CountLines(lines[..|lines| - 1], p) + if p(lines[|lines| - 1]) then 1 else 0
  }

  function CountEntries(entries: seq<Entry>, p: Entry -> bool): nat {
    if entries == [] then 0
    else CountEntries(entries[..|entries| - 1], p) + if p(entries[|entries| - 1]) then 1 else 0
  }

  lemma {:induction false} CountConcat(a: seq<Entry>, b: seq<Entry>, p: Entry -> bool)
    ensures CountEntries(a + b, p) == CountEntries(a, p) + CountEntries(b, p)
    decreases |b|
  {
    if b == [] {
      assert a + b == a;
    } else {
      assert (a + b)[..|a + b| - 1] == a + b[..|b| - 1];
      CountConcat(a, b[..|b| - 1], p);
    }
  }

  lemma CountOne(e: Entry, p: Entry -> bool)
    ensures CountEntries([e], p) == if p(e) then 1 else 0
  {
  }

  lemma ErrorIsNotCompletion(name: string, message: string)
    ensures EventEntry(Truncate(ErrorLabel(name, message), MAX_LOG_TEXT)) != TURN_COMPLETED
  {
    var shown := ErrorLabel(name, message);
    assert |shown| >= 11 && shown[5] == 'f';
    assert Truncate(shown, MAX_LOG_TEXT)[5] == 'f';
    assert "turn completed"[5] == 'c';
  }

  const IsResult := (e: Entry) => e.kind == ToolResult
  const IsCompletion := (e: Entry) => e == TURN_COMPLETED

  lemma LineCounts(line: Line)
    ensures CountEntries(HumanizeLine(line), IsResult) == if Completed(line) then 1 else 0
    ensures CountEntries(HumanizeLine(line), IsCompletion) == if Stops(line) then 1 else 0
  {
    match line
    case TextLine(prose) =>
      if prose != "" {
        CountOne(HumanizeLine(line)[0], IsResult);
        CountOne(HumanizeLine(line)[0], IsCompletion);
      }
    case ToolLine(part) =>
      if part.Some? {
        var out := HumanizeLine(line);
        CountOne(out[0], IsResult);
        CountOne(out[0], IsCompletion);
        if |out| == 2 {
          assert out == [out[0]] + [out[1]];
          CountConcat([out[0]], [out[1]], IsResult);
          CountConcat([out[0]], [out[1]], IsCompletion);
          CountOne(out[1], IsResult);
          CountOne(out[1], IsCompletion);
        } else {
          assert out == [out[0]];
        }
      }
    case FinishLine(reason) =>
      CountOne(TURN_COMPLETED, IsResult);
      CountOne(TURN_COMPLETED, IsCompletion);
    case ErrorLine(name, message) =>
      ErrorIsNotCompletion(name, message);
      CountOne(HumanizeLine(line)[0], IsResult);
      CountOne(HumanizeLine(line)[0], IsCompletion);
    case OtherLine =>
  }

  /** Over any transcript, results count exactly the completed calls, and "turn completed" counts exactly
      the finishes that stop. */
  lemma {:induction false} CountsAreExact(lines: seq<Line>)
    ensures CountEntries(Timeline(lines), IsResult) == CountLines(lines, Completed)
    ensures CountEntries(Timeline(lines), IsCompletion) == CountLines(lines, Stops)
    decreases |lines|
  {
    if lines != [] {
      var before, last := lines[..|lines| - 1], lines[|lines| - 1];
      CountsAreExact(before);
      LineCounts(last);
      CountConcat(Timeline(before), HumanizeLine(last), IsResult);
      CountConcat(Timeline(before), HumanizeLine(last), IsCompletion);
    }
  }

  predicate Bounded(e: Entry) {
    |e.text| <= if e.kind == Text then MAX_PROSE else MAX_LOG_TEXT
  }

  /** The two entries are what one completed tool line became. */
  ghost predicate FromOneLine(lines: seq<Line>, use: Entry, result: Entry) {
    exists j :: 0 <= j < |lines| && Completed(lines[j]) && HumanizeLine(lines[j]) == [use, result]
  }

  lemma LineResults(line: Line, k: nat)
    requires k < |HumanizeLine(line)| && HumanizeLine(line)[k].kind == ToolResult
    ensures Completed(line) && k == 1 && |HumanizeLine(line)| == 2
    ensures HumanizeLine(line)[0].kind == ToolUse
  {
  }

  lemma LaterLinesKeepPairs(lines: seq<Line>, line: Line, use: Entry, result: Entry)
    requires FromOneLine(lines, use, result)
    ensures FromOneLine(lines + [line], use, result)
  {
    var j :| 0 <= j < |lines| && Completed(lines[j]) && HumanizeLine(lines[j]) == [use, result];
    assert (lines + [line])[j] == lines[j];
  }

  /** Over any transcript, every result directly follows the tool use of its own line, no entry exceeds
      its kind's bound, and only tool uses carry a duration, which is never negative. */
  lemma {:induction false} TimelineIsWellFormed(lines: seq<Line>)
    ensures forall i :: 0 <= i < |Timeline(lines)| && Timeline(lines)[i].kind == ToolResult ==>
              && i > 0 && Timeline(lines)[i - 1].kind == ToolUse
              && FromOneLine(lines, Timeline(lines)[i - 1], Timeline(lines)[i])
    ensures forall e :: e in Timeline(lines) ==>
              && Bounded(e)
              && (e.durationMs.Some? ==> e.kind == ToolUse && e.durationMs.value >= 0)
    decreases |lines|
  {
    if lines != [] {
      var earlier, line := lines[..|lines| - 1], lines[|lines| - 1];
      TimelineIsWellFormed(earlier);
      var before, out, whole := Timeline(earlier), HumanizeLine(line), Timeline(lines);
      assert whole == before + out && earlier + [line] == lines;
      forall i | 0 <= i < |whole| && whole[i].kind == ToolResult
        ensures i > 0 && whole[i - 1].kind == ToolUse && FromOneLine(lines, whole[i - 1], whole[i])
      {
        if i < |before| {
          assert FromOneLine(earlier, before[i - 1], before[i]);
          LaterLinesKeepPairs(earlier, line, before[i - 1], before[i]);
        } else {
          LineResults(line, i - |before|);
          assert out == [whole[i - 1], whole[i]];
        }
      }
    }
  }

  // ---------------------------------------------------------------------------------------------
  // Where each line shows
  // ---------------------------------------------------------------------------------------------

  /** The position at which line `j` begins to show. */
  function ShowsAt(lines: seq<Line>, j: nat): nat
    requires j <= |lines|
  {
    |Timeline(lines[..j])|
  }

  lemma {:induction false} TimelinePrefix(lines: seq<Line>, j: nat)
    requires j <= |lines|
    ensures Timeline(lines[..j]) <= Timeline(lines)
    decreases |lines|
  {
    if j == |lines| {
      assert lines[..j] == lines;
    } else {
      var init := lines[..|lines| - 1];
      assert init[..j] == lines[..j];
      TimelinePrefix(init, j);
    }
  }

  /** Line `j` shows as its own entries, between those of the lines before and after it. */
  lemma LineShows(lines: seq<Line>, j: nat)
    requires j < |lines|
    ensures ShowsAt(lines, j) <= ShowsAt(lines, j + 1) <= |Timeline(lines)|
    ensures Timeline(lines)[ShowsAt(lines, j)..ShowsAt(lines, j + 1)] == HumanizeLine(lines[j])
  {
    TimelinePrefix(lines, j + 1);
    assert lines[..j + 1][..j] == lines[..j];
    assert Timeline(lines[..j + 1]) == Timeline(lines[..j]) + HumanizeLine(lines[j]);
    assert Timeline(lines)[..ShowsAt(lines, j + 1)] == Timeline(lines[..j + 1]);
  }

  /** `shown` is `text` when it has at most `max` characters, and otherwise its first `max` - 1 and an
      ellipsis. */
  predicate Cut(text: string, max: nat, shown: string)
    requires max > 1
  {
    if |text| <= max then shown == text
    else |shown| == max && shown[..max - 1] == text[..max - 1] && shown[max - 1] == '\U{2026}'
  }

  /** Over any transcript, what every line becomes: prose its own text; a tool call its tool, its input and its
      interval, followed, once it is completed, by its output; a stopping finish the completion; an error its
      name and message; and any other line nothing. */
  lemma EveryLineShows(lines: seq<Line>, j: nat)
    requires j < |lines|
    ensures ShowsAt(lines, j) <= ShowsAt(lines, j + 1) <= |Timeline(lines)|
    ensures var shown := Timeline(lines)[ShowsAt(lines, j)..ShowsAt(lines, j + 1)];
            match lines[j]
            case TextLine(prose) =>
              && (prose == "" <==> shown == [])
              && (prose != "" ==> |shown| == 1 && shown[0].kind == Text && Cut(prose, 4000, shown[0].text))
            case ToolLine(part) =>
              && (part.None? <==> shown == [])
              && (part.Some? ==>
                    var state := part.value.1;
                    && shown[0].kind == ToolUse && shown[0].tool == part.value.0
                    && Cut(if state.Some? then state.value.input else "", 240, shown[0].text)
                    && shown[0].durationMs == Duration(state)
                    && (|shown| == 2 <==> state.Some? && state.value.status == "completed")
                    && |shown| <= 2
                    && (|shown| == 2 ==>
                          && shown[1].kind == ToolResult
                          && Cut(if state.value.output == "" then "(ok)" else state.value.output, 240, shown[1].text)))
            case FinishLine(reason) =>
              shown == if reason == "stop" then [Entry(Event, "", "turn completed", None)] else []
            case ErrorLine(name, message) =>
              && |shown| == 1 && shown[0].kind == Event
              && (message != "" ==> Cut("turn failed: " + name + ": " + message, 240, shown[0].text))
              && (message == "" && name != "" ==> Cut("turn failed: " + name, 240, shown[0].text))
              && (message == "" && name == "" ==> shown[0].text == "turn failed")
            case OtherLine => shown == []
  {
    LineShows(lines, j);
  }
}
