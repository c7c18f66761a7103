/** The workflow scanner that looks for each CI step's private HOME: reading each line by the
    scanner's patterns, cutting a workflow into step blocks by indentation, finding the `env.HOME` of one
    block, and the check over a whole workflow. Lines carry no terminator. */
module StepBlocks {
  import opened Common

  /** The white space of the scanner's patterns and of its stripping. */
  predicate IsSpace(c: char) {
    || '\U{9}' <= c <= '\U{D}' || '\U{1C}' <= c <= ' ' || c == '\U{85}' || c == '\U{A0}'
    || c == '\U{1680}' || '\U{2000}' <= c <= '\U{200A}' || c == '\U{2028}' || c == '\U{2029}'
    || c == '\U{202F}' || c == '\U{205F}' || c == '\U{3000}'
  }

  /** Among the ASCII characters: the blank, and the controls from tab to carriage return and from file
      separator to unit separator. */
  lemma AsciiWhiteSpace(c: char)
    requires c as int < 128
    ensures IsSpace(c) <==> c as int in {9, 10, 11, 12, 13, 28, 29, 30, 31, 32}
  {
  }

  /** The number of leading white-space characters. */
  function Indent(line: string): (n: nat)
    ensures n <= |line|
  {
    if line != "" && IsSpace(line[0]) then 1 + Indent(line[1..]) else 0
  }

  predicate IsBlank(text: string) {
    Indent(text) == |text|
  }

  function Body(text: string): string {
    text[Indent(text)..]
  }

  predicate IsStep(text: string) {
    "- " <= Body(text)
  }

  predicate IsEnv(text: string) {
    "env:" <= Body(text) && IsBlank(Body(text)[4..])
  }

  function StripEnd(s: string): string {
    if s != "" && IsSpace(s[|s| - 1]) then StripEnd(s[..|s| - 1]) else s
  }

  /** The value of an indented `HOME:` entry. A value of white space alone reads as its last
      character, since the pattern asks for at least one. */
  function Home(text: string): Option<string> {
    if Indent(text) == 0 || !("HOME:" <= Body(text)) || Body(text)[5..] == "" then None
    else
      var rest := Body(text)[5..];
      Some(if IsBlank(rest) then [rest[|rest| - 1]] else StripEnd(Body(rest)))
  }

  /** The leading characters of a string that are not white space. */
  function Word(s: string): string {
    if s == "" || IsSpace(s[0]) then "" else [s[0]] + Word(s[1..])
  }

  /** What a `- uses:` line names. */
  function Uses(text: string): Option<string> {
    if !("- uses:" <= Body(text)) || IsBlank(Body(text)[7..]) then None
    else Some(Word(Body(Body(text)[7..])))
  }

  /** A line as the patterns see it. */
  datatype Line = Line(indent: nat, kind: Kind)
  datatype Kind = Blank | Step(uses: Option<string>) | EnvHeader | HomeEntry(home: string) | Other

  function Read(text: string): Line {
    Line(Indent(text),
         if IsBlank(text) then Blank
         else if IsStep(text) then Step(Uses(text))
         else if IsEnv(text) then EnvHeader
         else if Home(text).Some? then HomeEntry(Home(text).value)
         else Other)
  }

  /** A line is at most one of blank, list item, `env:` header and HOME entry, so the order in which the
      patterns are tried decides nothing. */
  lemma PatternsAreExclusive(text: string)
    ensures Read(text).kind == Blank <==> IsBlank(text)
    ensures Read(text).kind.Step? <==> IsStep(text)
    ensures Read(text).kind == EnvHeader <==> IsEnv(text)
    ensures forall home :: Read(text).kind == HomeEntry(home) <==> Home(text) == Some(home)
    ensures forall named :: Read(text).kind == Step(Some(named)) <==> Uses(text) == Some(named)
  {
    var body := Body(text);
    assert IsBlank(text) <==> body == "";
    assert IsStep(text) ==> body[0] == '-';
    assert IsEnv(text) ==> body[0] == 'e';
    assert Home(text).Some? ==> body[0] == 'H';
    assert Uses(text).Some? ==> body[..2] == "- uses:"[..2] == "- ";
  }

  function ReadAll(texts: seq<string>): seq<Line> {
    seq(|texts|, i requires 0 <= i < |texts| => Read(texts[i]))
  }

  // ---------------------------------------------------------------------------------------------
  // Step blocks
  // ---------------------------------------------------------------------------------------------

  /** Lines `start` to `end` are one step: it runs to the next list item at the same or a shallower
      indent, or to the end of the file. */
  ghost predicate IsBlock(lines: seq<Line>, start: nat, end: nat) {
    && start < end <= |lines|
    && lines[start].kind.Step?
    && (forall j :: start < j < end && lines[j].kind.Step? ==> lines[j].indent > lines[start].indent)
    && (end < |lines| ==> lines[end].kind.Step? && lines[end].indent <= lines[start].indent)
  }

  /** The step lines of a file, in order. */
  ghost predicate AreStarts(lines: seq<Line>, upto: nat, starts: seq<nat>) {
    && upto <= |lines|
    && (forall i :: 0 <= i < |starts| ==> starts[i] < upto && lines[starts[i]].kind.Step?)
    && (forall i, j :: 0 <= i < j < |starts| ==> starts[i] < starts[j])
    && (forall k :: 0 <= k < upto && lines[k].kind.Step? ==> k in starts)
  }

  method Starts(lines: seq<Line>) returns (starts: seq<nat>)
    ensures AreStarts(lines, |lines|, starts)
  {
    starts := [];
    for k := 0 to |lines|
      invariant AreStarts(lines, k, starts)
    {
      if lines[k].kind.Step? {
        starts := starts + [k];
      }
    }
  }

  /** The end of the step at `starts[idx]`, searching the later starts in order. */
  method EndOf(lines: seq<Line>, starts: seq<nat>, idx: nat) returns (end: nat)
    requires AreStarts(lines, |lines|, starts) && idx < |starts|
    ensures IsBlock(lines, starts[idx], end)
  {
    var indent := lines[starts[idx]].indent;
    for later := idx + 1 to |starts|
      invariant forall j :: idx < j < later ==> lines[starts[j]].indent > indent
    {
      if lines[starts[later]].indent <= indent {
        end := starts[later];
        BetweenStarts(lines, starts, idx, later);
        return;
      }
    }
    end := |lines|;
    BetweenStarts(lines, starts, idx, |starts|);
  }

  lemma BetweenStarts(lines: seq<Line>, starts: seq<nat>, idx: nat, later: nat)
    requires AreStarts(lines, |lines|, starts) && idx < later <= |starts|
    requires forall j :: idx < j < later ==> lines[starts[j]].indent > lines[starts[idx]].indent
    ensures forall k | starts[idx] < k < if later < |starts| then starts[later] else |lines| ::
              lines[k].kind.Step? ==> lines[k].indent > lines[starts[idx]].indent
  {
  }

  /** Cuts a workflow into its step blocks: exactly one for each list item, in file order. */
  method CutSteps(lines: seq<Line>) returns (blocks: seq<(nat, nat)>)
    ensures forall i :: 0 <= i < |blocks| ==> IsBlock(lines, blocks[i].0, blocks[i].1)
    ensures forall i, j :: 0 <= i < j < |blocks| ==> blocks[i].0 < blocks[j].0
    ensures forall k :: 0 <= k < |lines| && lines[k].kind.Step? ==>
              exists i :: 0 <= i < |blocks| && blocks[i].0 == k
  {
    var starts := Starts(lines);
    blocks := [];
    for idx := 0 to |starts|
      invariant |blocks| == idx
      invariant forall i :: 0 <= i < idx ==> blocks[i].0 == starts[i] && IsBlock(lines, blocks[i].0, blocks[i].1)
    {
      var end := EndOf(lines, starts, idx);
      blocks := blocks + [(starts[idx], end)];
    }
    forall k | 0 <= k < |lines| && lines[k].kind.Step? ensures exists i :: 0 <= i < |blocks| && blocks[i].0 == k {
      var i :| 0 <= i < |starts| && starts[i] == k;
      assert blocks[i].0 == k;
    }
  }

  /** Step blocks form a laminar family: any two are disjoint or nested, whatever the file. */
  lemma BlocksAreLaminar(lines: seq<Line>, s1: nat, e1: nat, s2: nat, e2: nat)
    requires IsBlock(lines, s1, e1) && IsBlock(lines, s2, e2) && s1 <= s2
    ensures e1 <= s2 || e2 <= e1
    ensures s1 == s2 ==> e1 == e2
  {
  }

  // ---------------------------------------------------------------------------------------------
  // The HOME of one block
  // ---------------------------------------------------------------------------------------------

  /** Every line after header `i` and before `k` that is not blank is indented deeper than the header. */
  ghost predicate Deeper(block: seq<Line>, i: nat, k: nat) {
    i < |block| && k <= |block|
    && forall j :: i < j < k && !block[j].kind.Blank? ==> block[j].indent > block[i].indent
  }

  /** Line `i` is the last `env:` before line `k`. */
  ghost predicate LastHeader(block: seq<Line>, i: nat, k: nat) {
    i < k <= |block| && block[i].kind.EnvHeader? && forall j :: i < j < k ==> !block[j].kind.EnvHeader?
  }

  /** Header `i` is still open at line `k`: the last header before it, and not yet left. */
  ghost predicate OpenAt(block: seq<Line>, i: nat, k: nat) {
    LastHeader(block, i, k) && Deeper(block, i, k)
  }

  ghost predicate SomeOpen(block: seq<Line>, k: nat) {
    exists i: nat :: OpenAt(block, i, k)
  }

  /** Line `j` is a HOME entry of the mapping that the nearest `env:` above it opens. */
  ghost predicate IsHomeEntry(block: seq<Line>, j: nat) {
    j < |block| && block[j].kind.HomeEntry? && SomeOpen(block, j + 1)
  }

  /** The first HOME entry of a block is line `j`. */
  ghost predicate FirstHome(block: seq<Line>, j: nat) {
    IsHomeEntry(block, j) && forall k :: 0 <= k < j ==> !IsHomeEntry(block, k)
  }

  /** Finds the value of the first HOME entry under the nearest `env:` header, and nothing when the
      block has no such entry. */
  method FindHome(block: seq<Line>) returns (home: Option<string>)
    ensures home.Some? ==> exists j: nat :: FirstHome(block, j) && home == Some(block[j].kind.home)
    ensures home.None? ==> forall j :: 0 <= j < |block| ==> !IsHomeEntry(block, j)
  {
    var envIndent: Option<nat> := None;
    ghost var header: nat := 0;
    for k := 0 to |block|
      invariant envIndent.Some? ==> OpenAt(block, header, k) && envIndent.value == block[header].indent
      invariant envIndent.None? ==> !SomeOpen(block, k)
      invariant forall j :: 0 <= j < k ==> !IsHomeEntry(block, j)
    {
      var line := block[k];
      ghost var before := envIndent;
      if !line.kind.Blank? {
        if envIndent.Some? && line.indent <= envIndent.value {
          envIndent := None;
        }
        if line.kind.EnvHeader? {
          envIndent := Some(line.indent);
        }
        HeaderStep(block, k, before, header);
        if line.kind.EnvHeader? {
          header := k;
        } else if envIndent.Some? {
          if line.kind.HomeEntry? {
            assert FirstHome(block, k);
            return Some(line.kind.home);
          }
        }
      } else {
        HeaderStep(block, k, before, header);
      }
    }
    home := None;
  }

  /** How one more line changes which header is open. */
  lemma HeaderStep(block: seq<Line>, k: nat, before: Option<nat>, header: nat)
    requires k < |block|
    requires before.Some? ==> OpenAt(block, header, k) && before.value == block[header].indent
    requires before.None? ==> !SomeOpen(block, k)
    ensures block[k].kind.EnvHeader? ==> OpenAt(block, k, k + 1)
    ensures !block[k].kind.EnvHeader? && before.Some? && (block[k].kind.Blank? || block[k].indent > before.value)
            ==> OpenAt(block, header, k + 1)
    ensures !block[k].kind.EnvHeader?
            && (before.None? || (!block[k].kind.Blank? && block[k].indent <= before.value))
            ==> !SomeOpen(block, k + 1)
  {
    if !block[k].kind.EnvHeader? && SomeOpen(block, k + 1) {
      var i: nat :| OpenAt(block, i, k + 1);
      assert OpenAt(block, i, k);
      if before.Some? {
        assert !(i < header) by { assert block[header].kind.EnvHeader?; }
        assert !(header < i) by { assert block[i].kind.EnvHeader?; }
        assert Deeper(block, header, k + 1);
      }
    }
  }

  /** Any HOME entry lies under an `env:` header, with every line in between, and the entry itself,
      indented deeper than the header. */
  lemma HomeEntriesLieUnderEnv(block: seq<Line>, j: nat)
    requires IsHomeEntry(block, j)
    ensures exists i: nat :: i < j && block[i].kind.EnvHeader? && Deeper(block, i, j + 1)
  {
  }

  /** The converse holds exactly when the nearest header above the entry is one that encloses it: an
      inner `env:` that has already been left hides the outer one. */
  lemma EnclosedHomeCountsExactly(block: seq<Line>, i: nat, j: nat)
    requires i < j < |block| && block[i].kind.EnvHeader? && Deeper(block, i, j + 1) && block[j].kind.HomeEntry?
    ensures IsHomeEntry(block, j) <==>
              forall h :: i < h < j && LastHeader(block, h, j) ==> Deeper(block, h, j + 1)
  {
    var last := LastEnv(block, i, j);
    if IsHomeEntry(block, j) {
      var o: nat :| OpenAt(block, o, j + 1);
      assert o == last;
      forall h | i < h < j && LastHeader(block, h, j)
        ensures Deeper(block, h, j + 1)
      {
        assert h == last;
      }
    } else {
      assert !OpenAt(block, last, j + 1);
    }
  }

  lemma LastEnv(block: seq<Line>, i: nat, j: nat) returns (last: nat)
    requires i < j < |block| && block[i].kind.EnvHeader?
    ensures i <= last && LastHeader(block, last, j)
    decreases j - i
  {
    if next :| i < next < j && block[next].kind.EnvHeader? {
      last := LastEnv(block, next, j);
    } else {
      last := i;
    }
  }

  // ---------------------------------------------------------------------------------------------
  // The check over a whole workflow
  // ---------------------------------------------------------------------------------------------

  const ACTION := "taiki-e/install-action"

  predicate IsAction(line: Line) {
    line.kind.Step? && line.kind.uses.Some? && ACTION <= line.kind.uses.value
  }

  predicate Mentions(s: string, key: string) {
    exists i :: 0 <= i <= |s| && key <= s[i..]
  }

  predicate JobPrivate(home: string) {
    Mentions(home, "runner.temp") || Mentions(home, "runner.workspace")
  }

  /** The first HOME entry of a block is job-private. */
  ghost predicate PrivateBlock(block: seq<Line>) {
    exists j: nat :: FirstHome(block, j) && JobPrivate(block[j].kind.home)
  }

  /** The step at line `k` runs under a job-private HOME, as its block states it. */
  ghost predicate RunsPrivately(lines: seq<Line>, k: nat) {
    exists end: nat :: IsBlock(lines, k, end) && PrivateBlock(lines[k..end])
  }

  ghost predicate Exposed(lines: seq<Line>, k: nat) {
    k < |lines| && IsAction(lines[k]) && !RunsPrivately(lines, k)
  }

  lemma FirstHomeDecides(block: seq<Line>, j: nat)
    requires FirstHome(block, j)
    ensures PrivateBlock(block) <==> JobPrivate(block[j].kind.home)
  {
    if i: nat :| FirstHome(block, i) && JobPrivate(block[i].kind.home) {
      assert !(i < j) && !(j < i);
    }
  }

  lemma BlockDecides(lines: seq<Line>, k: nat, end: nat)
    requires IsBlock(lines, k, end)
    ensures RunsPrivately(lines, k) <==> PrivateBlock(lines[k..end])
  {
    if e: nat :| IsBlock(lines, k, e) && PrivateBlock(lines[k..e]) {
      BlocksAreLaminar(lines, k, end, k, e);
    }
  }

  method IsPrivateStep(lines: seq<Line>, start: nat, end: nat) returns (ok: bool)
    requires IsBlock(lines, start, end)
    ensures ok <==> RunsPrivately(lines, start)
  {
    var home := FindHome(lines[start..end]);
    ok := home.Some? && JobPrivate(home.value);
    BlockDecides(lines, start, end);
    if home.Some? {
      ghost var j: nat :| FirstHome(lines[start..end], j) && home == Some(lines[start..end][j].kind.home);
      FirstHomeDecides(lines[start..end], j);
    }
  }

  ghost function ActionSteps(lines: seq<Line>, upto: nat): set<nat> {
    set k: nat | k < upto && k < |lines| && IsAction(lines[k])
  }

  ghost function ExposedSteps(lines: seq<Line>, upto: nat): set<nat> {
    set k | k in ActionSteps(lines, upto) && Exposed(lines, k)
  }

  /** The members of a set in ascending order. */
  ghost predicate Lists(list: seq<nat>, members: set<nat>) {
    && (forall k :: k in list <==> k in members)
    && (forall i, j :: 0 <= i < j < |list| ==> list[i] < list[j])
  }

  lemma ListOneMore(list: seq<nat>, members: set<nat>, k: nat)
    requires Lists(list, members) && forall m :: m in members ==> m < k
    ensures Lists(list + [k], members + {k})
  {
    forall m | m in members + {k} ensures m in list + [k] {
    }
    forall i | 0 <= i < |list| ensures list[i] < k {
      assert list[i] in list;
    }
  }

  /** The count and the reports for the lines before `upto`. */
  ghost predicate Accounted(lines: seq<Line>, upto: nat, seen: nat, failures: seq<nat>) {
    seen == |ActionSteps(lines, upto)| && Lists(failures, ExposedSteps(lines, upto))
  }

  lemma LinesWithoutAction(lines: seq<Line>, upto: nat, next: nat)
    requires upto <= next <= |lines| && forall k :: upto <= k < next ==> !IsAction(lines[k])
    ensures ActionSteps(lines, next) == ActionSteps(lines, upto)
    ensures ExposedSteps(lines, next) == ExposedSteps(lines, upto)
  {
    assert ActionSteps(lines, next) == ActionSteps(lines, upto);
  }

  lemma LineWithAction(lines: seq<Line>, k: nat)
    requires k < |lines| && IsAction(lines[k])
    ensures |ActionSteps(lines, k + 1)| == |ActionSteps(lines, k)| + 1
    ensures ExposedSteps(lines, k + 1) == ExposedSteps(lines, k) + if Exposed(lines, k) then {k} else {}
  {
    assert ActionSteps(lines, k + 1) == ActionSteps(lines, k) + {k};
  }

  /** The report on one step. */
  method CheckStep(lines: seq<Line>, start: nat, end: nat, seen: nat, failures: seq<nat>)
    returns (seen': nat, failures': seq<nat>)
    requires IsBlock(lines, start, end) && Accounted(lines, start, seen, failures)
    ensures Accounted(lines, start + 1, seen', failures')
  {
    seen', failures' := seen, failures;
    if IsAction(lines[start]) {
      LineWithAction(lines, start);
      seen' := seen + 1;
      var private := IsPrivateStep(lines, start, end);
      if !private {
        ListOneMore(failures, ExposedSteps(lines, start), start);
        failures' := failures + [start];
      }
    } else {
      LinesWithoutAction(lines, start, start + 1);
    }
  }

  /** How many steps use the action, and which of them are at fault: exactly those that do not run
      under a job-private HOME, in file order. */
  method Check(texts: seq<string>) returns (seen: nat, failures: seq<nat>)
    ensures seen == |ActionSteps(ReadAll(texts), |texts|)|
    ensures Lists(failures, ExposedSteps(ReadAll(texts), |texts|))
  {
    seen, failures := CheckLines(ReadAll(texts));
  }

  method CheckLines(lines: seq<Line>) returns (seen: nat, failures: seq<nat>)
    ensures Accounted(lines, |lines|, seen, failures)
  {
    var blocks := CutSteps(lines);
    seen, failures := 0, [];
    ghost var upto: nat := 0;
    for idx := 0 to |blocks|
      invariant upto <= |lines| && Accounted(lines, upto, seen, failures)
      invariant forall i :: 0 <= i < idx ==> blocks[i].0 < upto
      invariant forall i :: idx <= i < |blocks| ==> upto <= blocks[i].0
    {
      var (start, end) := blocks[idx];
      assert IsBlock(lines, start, end);
      BetweenBlocks(lines, blocks, idx, upto, start);
      seen, failures := CheckStep(lines, start, end, seen, failures);
      upto := start + 1;
    }
    BetweenBlocks(lines, blocks, |blocks|, upto, |lines|);
  }

  lemma BetweenBlocks(lines: seq<Line>, blocks: seq<(nat, nat)>, idx: nat, upto: nat, next: nat)
    requires idx <= |blocks| && upto <= next <= |lines|
    requires forall k :: 0 <= k < |lines| && lines[k].kind.Step? ==>
               exists i :: 0 <= i < |blocks| && blocks[i].0 == k
    requires forall i :: 0 <= i < idx ==> blocks[i].0 < upto
    requires forall i :: idx <= i < |blocks| ==> next <= blocks[i].0
    ensures ActionSteps(lines, next) == ActionSteps(lines, upto)
    ensures ExposedSteps(lines, next) == ExposedSteps(lines, upto)
  {
    LinesWithoutAction(lines, upto, next);
  }

  /** The exit status. It is 0 exactly when the workflow exists and uses the action, and every use runs
      under a job-private HOME; a workflow with nothing to check does not pass. */
  method ExitStatus(workflow: Option<seq<string>>) returns (status: nat)
    ensures status == 2 <==> workflow.None? || ActionSteps(ReadAll(workflow.value), |workflow.value|) == {}
    ensures status == 1 <==> workflow.Some? && ExposedSteps(ReadAll(workflow.value), |workflow.value|) != {}
    ensures status <= 2
  {
    if workflow.None? {
      return 2;
    }
    var seen, failures := Check(workflow.value);
    if seen == 0 {
      return 2;
    }
    if failures != [] {
      assert failures[0] in failures;
      return 1;
    }
    return 0;
  }

  // ---------------------------------------------------------------------------------------------
  // Lines as they are written
  // ---------------------------------------------------------------------------------------------

  function Pad(n: nat, body: string): string {
    if n == 0 then body else " " + Pad(n - 1, body)
  }

  lemma {:induction false} PadFacts(n: nat, body: string)
    requires body != "" && !IsSpace(body[0])
    ensures Indent(Pad(n, body)) == n && Body(Pad(n, body)) == body && !IsBlank(Pad(n, body))
  {
    if n > 0 {
      PadFacts(n - 1, body);
      assert Pad(n, body)[1..] == Pad(n - 1, body);
    }
  }

  lemma {:induction false} WordKeeps(p: string, s: string)
    requires forall i :: 0 <= i < |p| ==> !IsSpace(p[i])
    ensures p <= Word(p + s)
  {
    if p != "" {
      WordKeeps(p[1..], s);
      assert (p + s)[1..] == p[1..] + s;
    }
  }

  lemma ActionHasNoSpace()
    ensures forall i :: 0 <= i < |ACTION| ==> !IsSpace(ACTION[i])
  {
  }

  lemma UsesText(text: string, named: string)
    requires named != "" && !IsSpace(named[0]) && Body(text) == "- uses: " + named
    ensures Uses(text) == Some(Word(named))
  {
    assert Body(text)[7..] == Pad(1, named);
    PadFacts(1, named);
  }

  lemma UsesLine(n: nat, named: string)
    requires named != "" && !IsSpace(named[0])
    ensures Read(Pad(n, "- uses: " + named)) == Line(n, Step(Some(Word(named))))
  {
    var text := Pad(n, "- uses: " + named);
    PadFacts(n, "- uses: " + named);
    UsesText(text, named);
    PatternsAreExclusive(text);
  }

  lemma ActionLine(n: nat, version: string)
    ensures var line := Read(Pad(n, "- uses: " + ACTION + version));
            line.indent == n && IsAction(line)
  {
    var named := ACTION + version;
    ActionHasNoSpace();
    UsesLine(n, named);
    WordKeeps(ACTION, version);
    assert "- uses: " + ACTION + version == "- uses: " + named;
  }

  lemma EnvLine(n: nat)
    ensures Read(Pad(n, "env:")) == Line(n, EnvHeader)
  {
    PadFacts(n, "env:");
  }

  lemma NoteLine(n: nat)
    ensures Read(Pad(n, "NOTE: |")) == Line(n, Other)
  {
    PadFacts(n, "NOTE: |");
  }

  lemma HomeLine(n: nat, home: string)
    requires n > 0 && home != "" && !IsSpace(home[0]) && !IsSpace(home[|home| - 1])
    ensures Read(Pad(n, "HOME: " + home)) == Line(n, HomeEntry(home))
  {
    PadFacts(n, "HOME: " + home);
    assert ("HOME: " + home)[5..] == Pad(1, home);
    PadFacts(1, home);
  }

  lemma {:induction false} BlanksAreBlank(t: nat)
    ensures |Pad(t, "")| == t && IsBlank(Pad(t, "")) && (t > 0 ==> Pad(t, "")[t - 1] == ' ')
    ensures t > 0 ==> Pad(t, "")[..t - 1] == Pad(t - 1, "")
  {
    if t > 0 {
      BlanksAreBlank(t - 1);
      assert Pad(t, "")[1..] == Pad(t - 1, "");
    }
  }

  lemma {:induction false} StripEndStrips(s: string, t: nat)
    requires s != "" && !IsSpace(s[|s| - 1])
    ensures StripEnd(s + Pad(t, "")) == s
  {
    BlanksAreBlank(t);
    if t == 0 {
      assert s + "" == s;
    } else {
      var whole := s + Pad(t, "");
      assert whole[|whole| - 1] == ' ' && whole[..|whole| - 1] == s + Pad(t - 1, "");
      StripEndStrips(s, t - 1);
    }
  }

  /** Blanks after `env:` do not matter. */
  lemma EnvWithBlanks(n: nat, t: nat)
    ensures Read(Pad(n, "env:" + Pad(t, ""))) == Line(n, EnvHeader)
  {
    var body := "env:" + Pad(t, "");
    PadFacts(n, body);
    BlanksAreBlank(t);
    assert body[4..] == Pad(t, "");
    PatternsAreExclusive(Pad(n, body));
  }

  /** Nor do blanks around a HOME. */
  lemma HomeWithBlanks(n: nat, a: nat, home: string, t: nat)
    requires n > 0 && home != "" && !IsSpace(home[0]) && !IsSpace(home[|home| - 1])
    ensures Read(Pad(n, "HOME:" + Pad(a, home + Pad(t, "")))) == Line(n, HomeEntry(home))
  {
    var body := "HOME:" + Pad(a, home + Pad(t, ""));
    PadFacts(n, body);
    PadFacts(a, home + Pad(t, ""));
    assert body[5..] == Pad(a, home + Pad(t, ""));
    StripEndStrips(home, t);
    PatternsAreExclusive(Pad(n, body));
  }

  lemma {:induction false} LeadIsBlank(text: string)
    ensures forall i :: 0 <= i < Indent(text) ==> IsSpace(text[i])
  {
    if text != "" && IsSpace(text[0]) {
      LeadIsBlank(text[1..]);
      forall i | 0 <= i < Indent(text) ensures IsSpace(text[i]) {
        if i > 0 {
          assert text[i] == text[1..][i - 1];
        }
      }
    }
  }

  lemma {:induction false} WordIsPrefix(s: string)
    ensures Word(s) <= s
  {
    if s != "" && !IsSpace(s[0]) {
      WordIsPrefix(s[1..]);
    }
  }

  lemma WordStartsWith(p: string, named: string)
    requires forall i :: 0 <= i < |p| ==> !IsSpace(p[i])
    ensures p <= Word(named) <==> p <= named
  {
    WordIsPrefix(named);
    if p <= named {
      assert named == p + named[|p|..];
      WordKeeps(p, named[|p|..]);
    }
  }

  /** A step uses the action exactly when its `uses:` names something that starts with the action's name. */
  lemma UsesDecides(n: nat, named: string)
    requires named != "" && !IsSpace(named[0])
    ensures IsAction(Read(Pad(n, "- uses: " + named))) <==> "taiki-e/install-action" <= named
  {
    UsesLine(n, named);
    ActionHasNoSpace();
    WordStartsWith(ACTION, named);
  }

  /** And no other line uses it. */
  lemma ActionShape(text: string)
    requires IsAction(Read(text))
    ensures var n := Read(text).indent;
            n + 7 <= |text| && text[n..n + 7] == "- uses:" && forall i :: 0 <= i < n ==> IsSpace(text[i])
  {
    LeadIsBlank(text);
    assert Body(text)[..7] == text[Indent(text)..Indent(text) + 7];
  }

  /** A list item is any line that has, after white space, a dash and a blank. */
  lemma ListItemReads(n: nat, rest: string)
    ensures Read(Pad(n, "- " + rest)).indent == n && Read(Pad(n, "- " + rest)).kind.Step?
  {
    PadFacts(n, "- " + rest);
  }

  lemma ListItemShape(text: string)
    requires Read(text).kind.Step?
    ensures var n := Read(text).indent;
            && n + 2 <= |text| && text[n] == '-' && text[n + 1] == ' '
            && forall i :: 0 <= i < n ==> IsSpace(text[i])
  {
    LeadIsBlank(text);
  }

  // ---------------------------------------------------------------------------------------------
  // The check on whole files
  // ---------------------------------------------------------------------------------------------

  lemma BlockExists(lines: seq<Line>, k: nat, from: nat) returns (end: nat)
    requires k < from <= |lines| && lines[k].kind.Step?
    requires forall j :: k < j < from && lines[j].kind.Step? ==> lines[j].indent > lines[k].indent
    ensures IsBlock(lines, k, end) && from <= end
    decreases |lines| - from
  {
    if from == |lines| || (lines[from].kind.Step? && lines[from].indent <= lines[k].indent) {
      end := from;
    } else {
      end := BlockExists(lines, k, from + 1);
    }
  }

  /** The step's block has no entry before the one at `j`. */
  lemma EntryDecides(lines: seq<Line>, k: nat, end: nat, j: nat)
    requires IsBlock(lines, k, end) && j < end - k && FirstHome(lines[k..end], j)
    ensures RunsPrivately(lines, k) <==> JobPrivate(lines[k + j].kind.home)
  {
    BlockDecides(lines, k, end);
    FirstHomeDecides(lines[k..end], j);
  }

  lemma EnvThenHomeDecides(lines: seq<Line>, k: nat)
    requires k + 2 < |lines| && lines[k].kind.Step?
    requires lines[k + 1].kind == EnvHeader && lines[k + 2].kind.HomeEntry?
    requires lines[k + 1].indent < lines[k + 2].indent
    ensures RunsPrivately(lines, k) <==> JobPrivate(lines[k + 2].kind.home)
  {
    var end := BlockExists(lines, k, k + 3);
    var block := lines[k..end];
    assert block[0] == lines[k] && block[1] == lines[k + 1] && block[2] == lines[k + 2];
    assert OpenAt(block, 1, 3);
    assert FirstHome(block, 2);
    EntryDecides(lines, k, end, 2);
  }

  lemma NoEnvNoHome(lines: seq<Line>, k: nat, end: nat)
    requires IsBlock(lines, k, end) && forall j :: k < j < end ==> lines[j].kind != EnvHeader
    ensures !RunsPrivately(lines, k)
  {
    var block := lines[k..end];
    forall j | 0 <= j < |block| ensures block[j].kind != EnvHeader {
      assert block[j] == lines[k + j];
    }
    BlockDecides(lines, k, end);
  }

  /** The text holds the key. */
  ghost predicate Holds(text: string, key: string) {
    exists before, after :: Surrounds(text, before, key, after)
  }

  predicate Surrounds(text: string, before: string, key: string, after: string) {
    text == before + key + after
  }

  lemma MentionsIsHolds(text: string, key: string)
    ensures Mentions(text, key) <==> Holds(text, key)
  {
    if Mentions(text, key) {
      var i :| 0 <= i <= |text| && key <= text[i..];
      assert text == text[..i] + text[i..] && text[i..] == key + text[i..][|key|..];
      assert Surrounds(text, text[..i], key, text[i..][|key|..]);
    }
    if Holds(text, key) {
      var before, after :| Surrounds(text, before, key, after);
      assert text[|before|..] == key + after;
    }
  }

  /** A step that uses the action, with an `env:` right under it and a HOME right under that, is reported
      exactly when the HOME names neither the job's temporary directory nor the runner's workspace. */
  lemma StepWithHome(texts: seq<string>, k: nat, n: nat, version: string, e: nat, h: nat, home: string)
    requires k + 2 < |texts| && e < h
    requires home != "" && !IsSpace(home[0]) && !IsSpace(home[|home| - 1])
    requires texts[k] == Pad(n, "- uses: " + "taiki-e/install-action" + version)
    requires texts[k + 1] == Pad(e, "env:") && texts[k + 2] == Pad(h, "HOME: " + home)
    ensures k in ActionSteps(ReadAll(texts), |texts|)
    ensures k in ExposedSteps(ReadAll(texts), |texts|) <==>
              !Holds(home, "runner.temp") && !Holds(home, "runner.workspace")
  {
    ActionLine(n, version);
    EnvLine(e);
    HomeLine(h, home);
    EnvThenHomeDecides(ReadAll(texts), k);
    MentionsIsHolds(home, "runner.temp");
    MentionsIsHolds(home, "runner.workspace");
  }

  /** A step that uses the action and is followed at once by any list item at the same or a shallower
      indent, or by nothing, is reported. */
  lemma BareStepIsReported(texts: seq<string>, k: nat, n: nat, version: string, m: nat, rest: string)
    requires k < |texts| && m <= n
    requires texts[k] == Pad(n, "- uses: " + "taiki-e/install-action" + version)
    requires k + 1 < |texts| ==> texts[k + 1] == Pad(m, "- " + rest)
    ensures k in ExposedSteps(ReadAll(texts), |texts|)
  {
    ActionLine(n, version);
    ListItemReads(m, rest);
    NoEnvNoHome(ReadAll(texts), k, k + 1);
  }

  lemma OtherKeyThenHome(lines: seq<Line>, k: nat)
    requires k + 2 < |lines| && lines[k].kind.Step?
    requires lines[k + 1].kind == Other && lines[k + 2].kind.HomeEntry?
    requires k + 3 < |lines| ==> lines[k + 3].kind.Step? && lines[k + 3].indent <= lines[k].indent
    ensures !RunsPrivately(lines, k)
  {
    assert IsBlock(lines, k, k + 3);
    NoEnvNoHome(lines, k, k + 3);
  }

  /** A HOME under `with:` is not the environment: such a step is reported. */
  lemma HomeUnderWithIsReported(texts: seq<string>, k: nat, n: nat, version: string, w: nat, h: nat, home: string,
                                m: nat, rest: string)
    requires k + 2 < |texts| && m <= n && h > 0
    requires home != "" && !IsSpace(home[0]) && !IsSpace(home[|home| - 1])
    requires texts[k] == Pad(n, "- uses: " + "taiki-e/install-action" + version)
    requires texts[k + 1] == Pad(w, "with:") && texts[k + 2] == Pad(h, "HOME: " + home)
    requires k + 3 < |texts| ==> texts[k + 3] == Pad(m, "- " + rest)
    ensures k in ExposedSteps(ReadAll(texts), |texts|)
  {
    var lines := ReadAll(texts);
    assert lines[k].indent == n && IsAction(lines[k]) by { ActionLine(n, version); }
    assert lines[k + 1].kind == Other by { WithLine(w); }
    assert lines[k + 2].kind == HomeEntry(home) by { HomeLine(h, home); }
    if k + 3 < |texts| {
      assert lines[k + 3].kind.Step? && lines[k + 3].indent == m by { ListItemReads(m, rest); }
    }
    OtherKeyThenHome(lines, k);
  }

  lemma WithLine(n: nat)
    ensures Read(Pad(n, "with:")) == Line(n, Other)
  {
    PadFacts(n, "with:");
  }

  // ---------------------------------------------------------------------------------------------
  // A job-private step that the check reports
  // ---------------------------------------------------------------------------------------------

  /** The text lines of a step whose `env:` sets a HOME after a literal block that holds the text `env:`. */
  predicate IsLiteralEnvStep(texts: seq<string>, n: nat, version: string, home: string) {
    && |texts| == 5
    && texts[0] == Pad(n, "- uses: " + ACTION + version)
    && texts[1] == Pad(n + 2, "env:")
    && texts[2] == Pad(n + 4, "NOTE: |")
    && texts[3] == Pad(n + 6, "env:")
    && texts[4] == Pad(n + 4, "HOME: " + home)
  }

  /** Such a step, as the patterns see it. */
  predicate HidesHeader(lines: seq<Line>, n: nat, home: string) {
    && |lines| == 5 && IsAction(lines[0])
    && lines[1] == Line(n + 2, EnvHeader) && lines[2] == Line(n + 4, Other)
    && lines[3] == Line(n + 6, EnvHeader) && lines[4] == Line(n + 4, HomeEntry(home))
  }

  lemma HiddenHeaderIsReported(lines: seq<Line>, n: nat, home: string)
    requires HidesHeader(lines, n, home)
    ensures IsBlock(lines, 0, 5) && Deeper(lines, 1, 5) && Exposed(lines, 0)
    ensures lines[1].kind == EnvHeader && lines[4].kind == HomeEntry(home)
  {
    EnclosedHomeCountsExactly(lines, 1, 4);
    assert LastHeader(lines, 3, 4) && !Deeper(lines, 3, 5);
    assert lines[0..5] == lines;
    BlockDecides(lines, 0, 5);
  }

  lemma EnvLineAt(texts: seq<string>, i: nat, n: nat)
    requires i < |texts| && texts[i] == Pad(n, "env:")
    ensures ReadAll(texts)[i] == Line(n, EnvHeader)
  {
    EnvLine(n);
  }

  lemma NoteLineAt(texts: seq<string>, i: nat, n: nat)
    requires i < |texts| && texts[i] == Pad(n, "NOTE: |")
    ensures ReadAll(texts)[i] == Line(n, Other)
  {
    NoteLine(n);
  }

  lemma HomeLineAt(texts: seq<string>, i: nat, n: nat, home: string)
    requires i < |texts| && texts[i] == Pad(n, "HOME: " + home)
    requires n > 0 && home != "" && !IsSpace(home[0]) && !IsSpace(home[|home| - 1])
    ensures ReadAll(texts)[i] == Line(n, HomeEntry(home))
  {
    HomeLine(n, home);
  }

  lemma LiteralEnvStepReads(texts: seq<string>, n: nat, version: string, home: string)
    requires IsLiteralEnvStep(texts, n, version, home)
    requires home != "" && !IsSpace(home[0]) && !IsSpace(home[|home| - 1])
    ensures HidesHeader(ReadAll(texts), n, home)
  {
    var lines := ReadAll(texts);
    assert IsAction(lines[0]) by { ActionLine(n, version); }
    EnvLineAt(texts, 1, n + 2);
    NoteLineAt(texts, 2, n + 4);
    EnvLineAt(texts, 3, n + 6);
    HomeLineAt(texts, 4, n + 4, home);
  }

  /** A whole workflow step whose own `env:` encloses its HOME, and which the check reports whatever that
      HOME is, job-private or not: the text in the literal block hides the step's header. */
  lemma HiddenHome(texts: seq<string>, n: nat, version: string, home: string)
    requires IsLiteralEnvStep(texts, n, version, home)
    requires home != "" && !IsSpace(home[0]) && !IsSpace(home[|home| - 1])
    ensures var lines := ReadAll(texts);
            && IsBlock(lines, 0, 5) && Exposed(lines, 0)
            && lines[1].kind == EnvHeader && Deeper(lines, 1, 5)
            && lines[4].kind == HomeEntry(home)
  {
    LiteralEnvStepReads(texts, n, version, home);
    HiddenHeaderIsReported(ReadAll(texts), n, home);
  }

  /** Such a HOME can be job-private. */
  lemma RunnerTempIsPrivate()
    ensures var home := "${{ runner.temp }}";
            JobPrivate(home) && !IsSpace(home[0]) && !IsSpace(home[|home| - 1])
  {
    var home := "${{ runner.temp }}";
    assert "runner.temp" <= home[4..];
  }
}
