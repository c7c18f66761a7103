/** The version gate: reading a `MAJOR.MINOR.PATCH` out of a CLI's answer, ordering versions, and the
    decision to refuse a CLI that is too old. */
module HarnessVersion {
  import opened Common

  const U64_LIMIT: nat := 0x1_0000_0000_0000_0000
  const MIN_CLAUDE_VERSION := "1.0.109"

  // ---------------------------------------------------------------------------------------------
  // Splitting and numerals
  // ---------------------------------------------------------------------------------------------

  function Split(s: string, sep: char): (parts: seq<string>)
    ensures |parts| > 0
  {
    if s == "" then [""]
    else
      var rest := Split(s[1..], sep);
      if s[0] == sep then [""] + rest else [[s[0]] + rest[0]] + rest[1..]
  }

  predicate IsDigit(c: char) {
    '0' <= c <= '9'
  }

  predicate AllDigits(s: string) {
    forall i :: 0 <= i < |s| ==> IsDigit(s[i])
  }

  predicate IsNumeral(part: string) {
    part != "" && AllDigits(part)
  }

  predicate IsExact(candidate: string) {
    var parts := Split(candidate, '.');
    |parts| == 3 && forall i :: 0 <= i < 3 ==> IsNumeral(parts[i])
  }

  method IsExactVersion(candidate: string) returns (exact: bool)
    ensures exact == IsExact(candidate)
  {
    var parts := Split(candidate, '.');
    var count := 0;
    while count < |parts|
      invariant 0 <= count <= |parts|
      invariant forall i :: 0 <= i < count ==> IsNumeral(parts[i])
    {
      if !IsNumeral(parts[count]) {
        return false;
      }
      count := count + 1;
    }
    exact := count == 3;
  }

  /** The number a numeral stands for. */
  function Value(s: string): nat
    requires AllDigits(s)
  {
    if s == "" then 0
    else Value(s[..|s| - 1]) * 10 + (s[|s| - 1] as int - '0' as int)
  }

  /** Left-to-right accumulation that gives up on the first overflow. */
  function Accumulate(s: string): Option<nat> {
    if s == "" then Some(0)
    else
      var before := Accumulate(s[..|s| - 1]);
      var c := s[|s| - 1];
      if before.None? || !IsDigit(c) then None
      else
        var next := before.value * 10 + (c as int - '0' as int);
        if next < U64_LIMIT then Some(next) else None
  }

  /** Reading an unsigned 64-bit number, which also accepts a leading plus sign. */
  function ParseU64(s: string): Option<nat> {
    var digits := if s != "" && s[0] == '+' then s[1..] else s;
    if digits == "" then None else Accumulate(digits)
  }

  datatype Version = Version(major: nat, minor: nat, patch: nat)

  function ParseComponents(v: string): Option<Version> {
    if !IsExact(v) then None
    else
      var parts := Split(v, '.');
      var major, minor, patch := ParseU64(parts[0]), ParseU64(parts[1]), ParseU64(parts[2]);
      if major.None? || minor.None? || patch.None? then None
      else Some(Version(major.value, minor.value, patch.value))
  }

  lemma {:induction false} AccumulateIsValue(s: string)
    requires AllDigits(s)
    ensures Accumulate(s) == if Value(s) < U64_LIMIT then Some(Value(s)) else None
  {
    if s != "" {
      AccumulateIsValue(s[..|s| - 1]);
    }
  }

  ghost predicate Fits(part: string) {
    AllDigits(part) && Value(part) < U64_LIMIT
  }

  /** Parsing succeeds exactly on three all-digit non-empty parts that each fit in 64 bits, and then
      yields their numbers. */
  lemma ParsesExactly(v: string)
    ensures ParseComponents(v).Some? <==> IsExact(v) && forall i :: 0 <= i < 3 ==> Fits(Split(v, '.')[i])
    ensures ParseComponents(v).Some? ==>
              var parts := Split(v, '.');
              ParseComponents(v).value == Version(Value(parts[0]), Value(parts[1]), Value(parts[2]))
  {
    if IsExact(v) {
      var parts := Split(v, '.');
      forall i | 0 <= i < 3
        ensures ParseU64(parts[i]) == if Value(parts[i]) < U64_LIMIT then Some(Value(parts[i])) else None
      {
        assert IsNumeral(parts[i]);
        AccumulateIsValue(parts[i]);
      }
      assert Fits(parts[0]) <==> ParseU64(parts[0]).Some?;
      assert Fits(parts[1]) <==> ParseU64(parts[1]).Some?;
      assert Fits(parts[2]) <==> ParseU64(parts[2]).Some?;
    }
  }

  // ---------------------------------------------------------------------------------------------
  // Round trip
  // ---------------------------------------------------------------------------------------------

  function Digit(d: nat): char
    requires d < 10
  {
    ('0' as int + d) as char
  }

  function Decimal(n: nat): string {
    if n < 10 then [Digit(n)] else Decimal(n / 10) + [Digit(n % 10)]
  }

  function Render(v: Version): string {
    Decimal(v.major) + "." + Decimal(v.minor) + "." + Decimal(v.patch)
  }

  lemma {:induction false} DecimalReadsBack(n: nat)
    ensures IsNumeral(Decimal(n)) && Value(Decimal(n)) == n
  {
    if n >= 10 {
      DecimalReadsBack(n / 10);
      assert Decimal(n)[..|Decimal(n)| - 1] == Decimal(n / 10);
    } else {
      assert [Digit(n)][..0] == "";
    }
  }

  lemma {:induction false} SplitFirst(a: string, s: string, sep: char)
    requires sep !in a
    ensures Split(a + [sep] + s, sep) == [a] + Split(s, sep)
  {
    var whole := a + [sep] + s;
    if a == "" {
      assert whole[1..] == s;
    } else {
      assert whole[1..] == a[1..] + [sep] + s;
      SplitFirst(a[1..], s, sep);
      assert [a[0]] + a[1..] == a;
    }
  }

  lemma {:induction false} SplitLast(a: string, sep: char)
    requires sep !in a
    ensures Split(a, sep) == [a]
  {
    if a != "" {
      SplitLast(a[1..], sep);
      assert [a[0]] + a[1..] == a;
    }
  }

  lemma SplitRendered(v: Version)
    ensures Split(Render(v), '.') == [Decimal(v.major), Decimal(v.minor), Decimal(v.patch)]
  {
    var a, b, c := Decimal(v.major), Decimal(v.minor), Decimal(v.patch);
    DecimalReadsBack(v.major);
    DecimalReadsBack(v.minor);
    DecimalReadsBack(v.patch);
    assert Render(v) == a + ['.'] + (b + ['.'] + c);
    SplitFirst(a, b + ['.'] + c, '.');
    SplitFirst(b, c, '.');
    SplitLast(c, '.');
  }

  predicate Small(v: Version) {
    v.major < U64_LIMIT && v.minor < U64_LIMIT && v.patch < U64_LIMIT
  }

  /** Any three 64-bit components, written in decimal, parse back to themselves. */
  lemma RenderedVersionsParseBack(v: Version)
    requires Small(v)
    ensures ParseComponents(Render(v)) == Some(v)
  {
    SplitRendered(v);
    DecimalReadsBack(v.major);
    DecimalReadsBack(v.minor);
    DecimalReadsBack(v.patch);
    ParsesExactly(Render(v));
  }

  // ---------------------------------------------------------------------------------------------
  // Order
  // ---------------------------------------------------------------------------------------------

  predicate Geq(f: Version, r: Version) {
    || f.major > r.major
    || (f.major == r.major && (f.minor > r.minor || (f.minor == r.minor && f.patch >= r.patch)))
  }

  predicate VersionAtLeast(found: string, required: string) {
    var f, r := ParseComponents(found), ParseComponents(required);
    f.Some? && r.Some? && Geq(f.value, r.value)
  }

  /** A version as one number, its components being digits in base 2^64. */
  function Rank(v: Version): nat {
    (v.major * U64_LIMIT + v.minor) * U64_LIMIT + v.patch
  }

  /** On versions that parse, "at least" is numeric lexicographic order: the order of their ranks, hence
      total and transitive. A version that does not parse is never at least anything. */
  lemma AtLeastIsNumericOrder(found: string, required: string)
    ensures ParseComponents(found).Some? && ParseComponents(required).Some? ==>
              (VersionAtLeast(found, required)
               <==> Rank(ParseComponents(found).value) >= Rank(ParseComponents(required).value))
    ensures VersionAtLeast(found, required) || VersionAtLeast(required, found)
            <==> ParseComponents(found).Some? && ParseComponents(required).Some?
  {
  }

  lemma AtLeastIsTransitive(a: string, b: string, c: string)
    requires VersionAtLeast(a, b) && VersionAtLeast(b, c)
    ensures VersionAtLeast(a, c)
  {
  }

  // ---------------------------------------------------------------------------------------------
  // The version line, and the gate
  // ---------------------------------------------------------------------------------------------

  /** Unicode White_Space. */
  predicate IsSpace(c: char) {
    || '\U{9}' <= c <= '\U{D}' || c == ' ' || c == '\U{85}' || c == '\U{A0}' || c == '\U{1680}'
    || '\U{2000}' <= c <= '\U{200A}' || c == '\U{2028}' || c == '\U{2029}' || c == '\U{202F}'
    || c == '\U{205F}' || c == '\U{3000}'
  }

  /** Among the ASCII characters: the blank and the five controls from tab to carriage return. */
  lemma AsciiWhiteSpace(c: char)
    requires c as int < 128
    ensures IsSpace(c) <==> c in {' ', '\t', '\n', '\U{B}', '\U{C}', '\r'}
  {
  }

  predicate Blank(s: string) {
    forall i :: 0 <= i < |s| ==> IsSpace(s[i])
  }

  function TrimStart(s: string): string {
    if s != "" && IsSpace(s[0]) then TrimStart(s[1..]) else s
  }

  function TrimEnd(s: string): string {
    if s != "" && IsSpace(s[|s| - 1]) then TrimEnd(s[..|s| - 1]) else s
  }

  function Trim(s: string): string {
    TrimEnd(TrimStart(s))
  }

  function LineEnd(s: string): (n: nat)
    ensures n <= |s| && (n < |s| ==> s[n] == '\n')
    ensures forall i :: 0 <= i < n ==> s[i] != '\n'
  {
    if s == "" || s[0] == '\n' then 0 else 1 + LineEnd(s[1..])
  }

  function StripReturn(line: string): string {
    if line != "" && line[|line| - 1] == '\r' then line[..|line| - 1] else line
  }

  /** The lines of a text, without their terminators. */
  function Lines(s: string): seq<string>
    decreases |s|
  {
    if s == "" then []
    else
      var n := LineEnd(s);
      if n == |s| then [s] else [StripReturn(s[..n])] + Lines(s[n + 1..])
  }

  function FirstFilled(lines: seq<string>): Option<string> {
    if lines == [] then None
    else if Trim(lines[0]) != "" then Some(Trim(lines[0]))
    else FirstFilled(lines[1..])
  }

  /** The characters up to the first white space. */
  function Token(s: string): string {
    if s == "" || IsSpace(s[0]) then "" else [s[0]] + Token(s[1..])
  }

  /** The first word of the first line that is not blank. */
  function VersionToken(output: string): Option<string> {
    var line := FirstFilled(Lines(output));
    if line.None? then None else Some(Token(line.value))
  }

  function ParseClaudeVersion(output: string): Option<string> {
    var token := VersionToken(output);
    if token.Some? && IsExact(token.value) then token else None
  }

  /** The first word of a text. */
  function FirstWord(s: string): Option<string> {
    if s == "" then None else if IsSpace(s[0]) then FirstWord(s[1..]) else Some(Token(s))
  }

  lemma {:induction false} LeadingBlankSkipped(a: string, s: string)
    requires Blank(a)
    ensures FirstWord(a + s) == FirstWord(s)
  {
    if a == "" {
      assert a + s == s;
    } else {
      assert (a + s)[1..] == a[1..] + s;
      LeadingBlankSkipped(a[1..], s);
    }
  }

  lemma {:induction false} TokenStopsAtSpace(a: string, s: string)
    requires s == "" || IsSpace(s[0])
    ensures Token(a + s) == Token(a)
  {
    if a == "" {
      assert a + s == s;
    } else {
      assert (a + s)[1..] == a[1..] + s;
      TokenStopsAtSpace(a[1..], s);
    }
  }

  lemma {:induction false} WordStopsAtSpace(a: string, s: string)
    requires !Blank(a) && (s == "" || IsSpace(s[0]))
    ensures FirstWord(a + s) == FirstWord(a)
  {
    if IsSpace(a[0]) {
      assert (a + s)[1..] == a[1..] + s;
      WordStopsAtSpace(a[1..], s);
    } else {
      TokenStopsAtSpace(a, s);
    }
  }

  lemma {:induction false} TrimStartSplits(s: string) returns (front: string)
    ensures Blank(front) && s == front + TrimStart(s)
    ensures TrimStart(s) == "" || !IsSpace(TrimStart(s)[0])
  {
    if s != "" && IsSpace(s[0]) {
      var f := TrimStartSplits(s[1..]);
      front := [s[0]] + f;
    } else {
      front := "";
    }
  }

  lemma {:induction false} TrimEndSplits(s: string) returns (back: string)
    ensures Blank(back) && s == TrimEnd(s) + back
    ensures s != "" && !IsSpace(s[0]) ==> TrimEnd(s) != "" && TrimEnd(s)[0] == s[0]
  {
    if s != "" && IsSpace(s[|s| - 1]) {
      var b := TrimEndSplits(s[..|s| - 1]);
      back := b + [s[|s| - 1]];
    } else {
      back := "";
    }
  }

  /** Trimming a line loses neither its emptiness nor its first word. */
  lemma TrimKeepsFirstWord(line: string)
    ensures FirstWord(line) == if Trim(line) == "" then None else Some(Token(Trim(line)))
  {
    var front := TrimStartSplits(line);
    var rest := TrimStart(line);
    var back := TrimEndSplits(rest);
    LeadingBlankSkipped(front, rest);
    if rest != "" {
      TokenStopsAtSpace(Trim(line), back);
    }
  }

  /** A terminator, and a carriage return before it, change nothing. */
  lemma TerminatorIgnored(line: string, rest: string)
    ensures FirstWord(line + ['\n'] + rest)
            == if FirstWord(StripReturn(line)).Some? then FirstWord(StripReturn(line)) else FirstWord(rest)
  {
    var body := StripReturn(line);
    var tail := line[|body|..] + ['\n'];
    assert line + ['\n'] + rest == body + (tail + rest);
    assert Blank(tail) && IsSpace(tail[0]);
    if Blank(body) {
      LeadingBlankSkipped(body, "");
      assert body + "" == body;
      assert Blank(body + tail) && body + (tail + rest) == (body + tail) + rest;
      LeadingBlankSkipped(body + tail, rest);
    } else {
      WordStopsAtSpace(body, tail + rest);
      WordExists(body);
    }
  }

  lemma {:induction false} WordExists(s: string)
    requires !Blank(s)
    ensures FirstWord(s).Some?
  {
    if IsSpace(s[0]) {
      WordExists(s[1..]);
    }
  }

  /** Working line by line finds what scanning the whole answer for its first word finds. */
  lemma {:induction false} VersionTokenIsFirstWord(output: string)
    ensures VersionToken(output) == FirstWord(output)
    decreases |output|
  {
    if output != "" {
      var n := LineEnd(output);
      if n == |output| {
        TrimKeepsFirstWord(output);
        assert Lines(output) == [output];
        assert FirstFilled([output][1..]) == None;
        assert FirstFilled([output]) == if Trim(output) != "" then Some(Trim(output)) else None;
      } else {
        var line, rest := output[..n], output[n + 1..];
        assert output == line + ['\n'] + rest;
        TerminatorIgnored(line, rest);
        TrimKeepsFirstWord(StripReturn(line));
        VersionTokenIsFirstWord(rest);
        assert Lines(output)[1..] == Lines(rest);
      }
    }
  }

  /** The gate's answer to what `claude --version` printed, nothing when it could not be run. */
  function GateRefuses(output: Option<string>): Option<string> {
    if output.None? then None
    else
      var found := ParseClaudeVersion(output.value);
      if found.None? || VersionAtLeast(found.value, MIN_CLAUDE_VERSION) then None else found
  }

  lemma MinimumParses()
    ensures ParseComponents(MIN_CLAUDE_VERSION) == Some(Version(1, 0, 109))
  {
    var v := Version(1, 0, 109);
    assert Decimal(1) == "1" && Decimal(0) == "0";
    assert Decimal(109) == Decimal(10) + "9" && Decimal(10) == Decimal(1) + "0";
    assert Render(v) == MIN_CLAUDE_VERSION;
    RenderedVersionsParseBack(v);
  }

  /** The gate refuses exactly an answer whose first word is three numerals that either come before
      1.0.109 or do not all fit in 64 bits; anything it cannot read as a version is let through. */
  lemma GateRefusesExactly(output: Option<string>)
    ensures GateRefuses(output).Some? <==>
              output.Some? && FirstWord(output.value).Some? && Unsupported(FirstWord(output.value).value)
    ensures GateRefuses(output).Some? ==> GateRefuses(output) == FirstWord(output.value)
  {
    if output.Some? {
      VersionTokenIsFirstWord(output.value);
      if FirstWord(output.value).Some? {
        UnsupportedExactly(FirstWord(output.value).value);
      }
    }
  }

  /** Three numerals that come before 1.0.109, or that do not all fit in 64 bits. */
  ghost predicate Unsupported(word: string) {
    IsExact(word) &&
    (|| (exists i :: 0 <= i < 3 && !Fits(Split(word, '.')[i]))
     || (ParseComponents(word).Some? && Rank(ParseComponents(word).value) < Rank(Version(1, 0, 109))))
  }

  lemma UnsupportedExactly(word: string)
    ensures Unsupported(word) <==> IsExact(word) && !VersionAtLeast(word, MIN_CLAUDE_VERSION)
  {
    MinimumParses();
    ParsesExactly(word);
    AtLeastIsNumericOrder(word, MIN_CLAUDE_VERSION);
  }

  lemma RenderedWord(lead: string, v: Version, rest: string)
    requires Blank(lead) && (rest == "" || IsSpace(rest[0]))
    ensures FirstWord(lead + Render(v) + rest) == Some(Render(v))
  {
    RenderHasNoSpace(v);
    TokenOfSolid(Render(v));
    WordStopsAtSpace(Render(v), rest);
    assert lead + Render(v) + rest == lead + (Render(v) + rest);
    LeadingBlankSkipped(lead, Render(v) + rest);
  }

  lemma RenderedUnsupported(v: Version)
    ensures Unsupported(Render(v)) <==> !Small(v) || Rank(v) < Rank(Version(1, 0, 109))
  {
    SplitRendered(v);
    DecimalReadsBack(v.major);
    DecimalReadsBack(v.minor);
    DecimalReadsBack(v.patch);
    var parts := Split(Render(v), '.');
    assert IsExact(Render(v));
    assert Fits(parts[0]) <==> v.major < U64_LIMIT;
    assert Fits(parts[1]) <==> v.minor < U64_LIMIT;
    assert Fits(parts[2]) <==> v.patch < U64_LIMIT;
    if Small(v) {
      RenderedVersionsParseBack(v);
    }
  }

  /** End to end: a CLI that prints a version, after any white space and before any white space and further
      text, is refused exactly when that version comes before 1.0.109 or has a component of 2^64 or more,
      however new it is. */
  lemma GateOnPrintedVersions(lead: string, v: Version, suffix: string)
    requires Blank(lead) && (suffix == "" || IsSpace(suffix[0]))
    ensures GateRefuses(Some(lead + Render(v) + suffix))
            == if !Small(v) || Rank(v) < Rank(Version(1, 0, 109)) then Some(Render(v)) else None
  {
    RenderedWord(lead, v, suffix);
    RenderedUnsupported(v);
    GateRefusesExactly(Some(lead + Render(v) + suffix));
  }

  /** The same for ordinary terminal output, in plain figures. */
  lemma GateOnTerminalOutput(lead: string, major: nat, minor: nat, patch: nat, suffix: string)
    requires forall c :: c in lead ==> c in {' ', '\t', '\n', '\r'}
    requires suffix == "" || suffix[0] in {' ', '\t', '\n', '\r'}
    ensures var word := Decimal(major) + "." + Decimal(minor) + "." + Decimal(patch);
            var limit := 0x1_0000_0000_0000_0000;
            GateRefuses(Some(lead + word + suffix))
            == if || major >= limit || minor >= limit || patch >= limit
                  || major == 0 || (major == 1 && minor == 0 && patch < 109)
               then Some(word) else None
  {
    var v := Version(major, minor, patch);
    forall i | 0 <= i < |lead| ensures IsSpace(lead[i]) {
      assert lead[i] in lead;
      AsciiWhiteSpace(lead[i]);
    }
    if suffix != "" {
      AsciiWhiteSpace(suffix[0]);
    }
    GateOnPrintedVersions(lead, v, suffix);
    if Small(v) {
      RankedBefore(v);
    }
  }

  lemma RankedBefore(v: Version)
    requires Small(v)
    ensures Rank(v) < Rank(Version(1, 0, 109)) <==> v.major == 0 || (v.major == 1 && v.minor == 0 && v.patch < 109)
  {
  }

  /** A printable character that is no blank, glued to the version, makes it unreadable, and it passes. */
  lemma GluedSuffixPasses(lead: string, v: Version, suffix: string)
    requires forall c :: c in lead ==> c in {' ', '\t', '\n', '\r'}
    requires suffix != "" && '!' <= suffix[0] <= '~' && suffix[0] != '.' && !('0' <= suffix[0] <= '9')
    ensures GateRefuses(Some(lead + Render(v) + suffix)) == None
  {
    var output := lead + Render(v) + suffix;
    forall i | 0 <= i < |lead| ensures IsSpace(lead[i]) {
      assert lead[i] in lead;
      AsciiWhiteSpace(lead[i]);
    }
    AsciiWhiteSpace(suffix[0]);
    assert output == lead + (Render(v) + suffix);
    LeadingBlankSkipped(lead, Render(v) + suffix);
    GluedWord(v, suffix);
    GateRefusesExactly(Some(output));
  }

  lemma GluedWord(v: Version, suffix: string)
    requires suffix != "" && !IsSpace(suffix[0]) && suffix[0] != '.' && !('0' <= suffix[0] <= '9')
    ensures var word := FirstWord(Render(v) + suffix);
            word.Some? && !IsExact(word.value)
  {
    RenderHasNoSpace(v);
    TokenThroughSolid(Render(v), suffix);
    var word := Token(Render(v) + suffix);
    assert word[|Render(v)|] == suffix[0];
    if IsExact(word) {
      ExactCharacters(word);
    }
  }

  lemma {:induction false} TokenThroughSolid(a: string, s: string)
    requires forall i :: 0 <= i < |a| ==> !IsSpace(a[i])
    ensures Token(a + s) == a + Token(s)
  {
    if a == "" {
      assert a + s == s;
    } else {
      assert (a + s)[1..] == a[1..] + s;
      TokenThroughSolid(a[1..], s);
    }
  }

  lemma ExactCharacters(s: string)
    requires IsExact(s)
    ensures forall i :: 0 <= i < |s| ==> IsDigit(s[i]) || s[i] == '.'
  {
    var parts := Split(s, '.');
    forall i | 0 <= i < |parts| ensures AllDigits(parts[i]) {
      assert IsNumeral(parts[i]);
    }
    PartsCover(s);
  }

  lemma {:induction false} PartsCover(s: string)
    requires forall i :: 0 <= i < |Split(s, '.')| ==> AllDigits(Split(s, '.')[i])
    ensures forall i :: 0 <= i < |s| ==> IsDigit(s[i]) || s[i] == '.'
  {
    if s != "" {
      var parts, rest := Split(s, '.'), Split(s[1..], '.');
      if s[0] == '.' {
        assert forall i :: 0 <= i < |rest| ==> rest[i] == parts[i + 1];
      } else {
        assert parts[0] == [s[0]] + rest[0];
        assert parts[0][0] == s[0];
        forall k | 0 <= k < |rest[0]| ensures IsDigit(rest[0][k]) {
          assert parts[0][k + 1] == rest[0][k];
        }
        assert forall i :: 1 <= i < |rest| ==> rest[i] == parts[i];
      }
      PartsCover(s[1..]);
    }
  }

  /** A version newer than every supported one is refused because its first component overflows. */
  lemma OverflowingVersionIsRefused()
    ensures GateRefuses(Some(Render(Version(U64_LIMIT, 0, 0)))).Some?
    ensures Rank(Version(U64_LIMIT, 0, 0)) > Rank(Version(1, 0, 109))
  {
    var v := Version(U64_LIMIT, 0, 0);
    GateOnPrintedVersions("", v, "");
    assert "" + Render(v) + "" == Render(v);
  }

  lemma RenderHasNoSpace(v: Version)
    ensures Render(v) != "" && forall i :: 0 <= i < |Render(v)| ==> !IsSpace(Render(v)[i])
  {
    DecimalReadsBack(v.major);
    DecimalReadsBack(v.minor);
    DecimalReadsBack(v.patch);
    var a, b, c := Decimal(v.major), Decimal(v.minor), Decimal(v.patch);
    forall i | 0 <= i < |Render(v)| ensures !IsSpace(Render(v)[i]) {
      assert IsDigit(Render(v)[i]) || Render(v)[i] == '.';
    }
  }

  lemma {:induction false} TokenOfSolid(s: string)
    requires forall i :: 0 <= i < |s| ==> !IsSpace(s[i])
    ensures Token(s) == s
  {
    if s != "" {
      TokenOfSolid(s[1..]);
    }
  }
}
