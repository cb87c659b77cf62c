/** Reading a phase transition off the end of a skill's output. */
module Routing {
  import opened Text
  import opened Wrappers

  datatype PhaseTransition = PhaseTransition(nextSkill: string, summary: string, deliverable: string)

  // ---- strings ----

  function TrimEnd(s: string): string {
    if s != "" && IsWhitespace(s[|s| - 1]) then TrimEnd(s[..|s| - 1]) else s
  }

  function TrimStart(s: string): string {
    if s != "" && IsWhitespace(s[0]) then TrimStart(s[1..]) else s
  }

  function Trim(s: string): string { TrimStart(TrimEnd(s)) }

  function StripPrefix(s: string, prefix: string): Option<string> {
    if prefix <= s then Some(s[|prefix|..]) else None
  }

  /** What is between the newlines. */
  function Split(s: string): seq<string> {
    if s == "" then [""]
    else
      var rest := Split(s[1..]);
      if s[0] == '\n' then [""] + rest
      else [[s[0]] + FirstOf(rest)] + if rest == [] then [] else rest[1..]
  }

  function FirstOf(parts: seq<string>): string { if parts == [] then "" else parts[0] }

  function ChopReturn(line: string): string {
    if line != "" && line[|line| - 1] == '\r' then line[..|line| - 1] else line
  }

  /** `str::lines`: a carriage return before a newline belongs to the line ending, and
      an empty last piece is no line. */
  function Lines(s: string): seq<string> { Ended(Split(s)) }

  function Ended(parts: seq<string>): seq<string> {
    if parts == [] then []
    else
      var ended, last := parts[..|parts| - 1], parts[|parts| - 1];
      seq(|ended|, i requires 0 <= i < |ended| => ChopReturn(ended[i])) + if last == "" then [] else [last]
  }

  // ---- parsing ----

  function DropBlank(lines: seq<string>): seq<string> {
    if lines != [] && IsBlank(Trim(lines[|lines| - 1])) then DropBlank(lines[..|lines| - 1]) else lines
  }

  /** The value of a directive line, if it is one and the value is not empty. */
  function Directive(line: string, prefix: string): Option<string> {
    match StripPrefix(Trim(line), prefix)
    case None => None
    case Some(rest) => if Trim(rest) == "" then None else Some(Trim(rest))
  }

  const SUMMARY := "SUMMARY:"
  const NEXT_SKILL := "NEXT_SKILL:"

  method ParsePhaseTransition(output: string) returns (r: Option<PhaseTransition>)
    ensures r == ParsedTransition(output)
  {
    r := ParseFromBelow(Lines(TrimEnd(output)));
  }

  /** What follows a prefix; nothing if the line does not have it. */
  method ValueAfter(line: string, prefix: string) returns (value: string)
    ensures Directive(line, prefix) == if value == "" then None else Some(value)
  {
    var stripped := StripPrefix(Trim(line), prefix);
    if stripped.None? { return ""; }
    value := Trim(stripped.value);
  }

  method ParseFromBelow(all: seq<string>) returns (r: Option<PhaseTransition>)
    ensures r == ParseLines(all)
  {
    var lines := PopBlank(all);
    if |lines| < 2 { return None; }
    var summary := ValueAfter(lines[|lines| - 1], "SUMMARY:");
    if summary == "" { return None; }
    r := ParseUpperPart(lines[..|lines| - 1], summary);
  }

  method ParseUpperPart(above: seq<string>, summary: string) returns (r: Option<PhaseTransition>)
    ensures r == ParseUpper(above, summary)
  {
    var lines := PopBlank(above);
    if |lines| == 0 { return None; }
    var nextSkill := ValueAfter(lines[|lines| - 1], "NEXT_SKILL:");
    if nextSkill == "" { return None; }
    lines := PopBlank(lines[..|lines| - 1]);
    var deliverable := Join(lines, "\n");
    if IsBlank(deliverable) { return None; }
    return Some(PhaseTransition(nextSkill, summary, deliverable));
  }

  method PopBlank(lines: seq<string>) returns (r: seq<string>)
    ensures r == DropBlank(lines)
  {
    r := lines;
    while r != [] && Trim(r[|r| - 1]) == ""
      invariant DropBlank(r) == DropBlank(lines)
    {
      TrimKeepsText(r[|r| - 1]);
      r := r[..|r| - 1];
    }
    if r != [] { TrimKeepsText(r[|r| - 1]); }
  }

  function ParseLines(lines: seq<string>): Option<PhaseTransition> {
    var all := DropBlank(lines);
    if |all| < 2 then None
    else
      match Directive(all[|all| - 1], SUMMARY)
      case None => None
      case Some(summary) => ParseUpper(all[..|all| - 1], summary)
  }

  function ParseUpper(above: seq<string>, summary: string): Option<PhaseTransition> {
    var upper := DropBlank(above);
    if upper == [] then None
    else
      match Directive(upper[|upper| - 1], NEXT_SKILL)
      case None => None
      case Some(nextSkill) =>
        var body := DropBlank(upper[..|upper| - 1]);
        if IsBlank(Join(body, "\n")) then None
        else Some(PhaseTransition(nextSkill, summary, Join(body, "\n")))
  }

  function ParsedTransition(output: string): Option<PhaseTransition> {
    ParseLines(Lines(TrimEnd(output)))
  }

  // ---- exactly which lines are a transition ----

  predicate AllBlank(lines: seq<string>) { forall i | 0 <= i < |lines| :: IsBlank(lines[i]) }

  /** The pieces of an output, top to bottom. */
  datatype Layout = Layout(
    body: seq<string>, gap: seq<string>, next: string, between: seq<string>, summary: string, after: seq<string>)

  function Laid(l: Layout): seq<string> {
    l.body + l.gap + [l.next] + l.between + [l.summary] + l.after
  }

  /** Only blank lines around the two directives, and a body that ends with a line of text. */
  ghost predicate IsLayoutOf(l: Layout, t: PhaseTransition) {
    && AllBlank(l.gap) && AllBlank(l.between) && AllBlank(l.after)
    && Directive(l.next, NEXT_SKILL) == Some(t.nextSkill)
    && Directive(l.summary, SUMMARY) == Some(t.summary)
    && l.body != [] && !IsBlank(l.body[|l.body| - 1])
    && Join(l.body, "\n") == t.deliverable
  }

  lemma {:induction false} TrimEndIs(s: string)
    ensures TrimEnd(s) <= s && IsBlank(s[|TrimEnd(s)|..])
    ensures TrimEnd(s) != "" ==> !IsWhitespace(TrimEnd(s)[|TrimEnd(s)| - 1])
  {
    if s != "" && IsWhitespace(s[|s| - 1]) {
      TrimEndIs(s[..|s| - 1]);
      assert s[|TrimEnd(s)|..] == s[..|s| - 1][|TrimEnd(s)|..] + [s[|s| - 1]];
    }
  }

  lemma {:induction false} TrimStartIs(s: string)
    ensures |TrimStart(s)| <= |s| && TrimStart(s) == s[|s| - |TrimStart(s)|..] && IsBlank(s[..|s| - |TrimStart(s)|])
    ensures TrimStart(s) != "" ==> !IsWhitespace(TrimStart(s)[0])
  {
    if s != "" && IsWhitespace(s[0]) {
      TrimStartIs(s[1..]);
      var cut := |s| - |TrimStart(s)|;
      assert s[..cut] == [s[0]] + s[1..][..cut - 1];
    }
  }

  /** Trimming leaves something exactly when there is something. */
  lemma TrimKeepsText(s: string)
    ensures IsBlank(Trim(s)) <==> IsBlank(s)
    ensures Trim(s) == "" <==> IsBlank(s)
  {
    TrimEndIs(s);
    TrimStartIs(TrimEnd(s));
    var e := TrimEnd(s);
    assert s == e + s[|e|..];
    assert e == e[..|e| - |Trim(s)|] + Trim(s);
    if Trim(s) != "" {
      assert Trim(s)[0] in Trim(s);
    }
  }

  lemma {:induction false} DropBlankIs(lines: seq<string>)
    ensures DropBlank(lines) <= lines && AllBlank(lines[|DropBlank(lines)|..])
    ensures DropBlank(lines) != [] ==> !IsBlank(DropBlank(lines)[|DropBlank(lines)| - 1])
  {
    if lines != [] {
      var init, last := lines[..|lines| - 1], lines[|lines| - 1];
      TrimKeepsText(last);
      if IsBlank(last) {
        DropBlankIs(init);
        assert lines == init + [last];
        assert lines[|DropBlank(init)|..] == init[|DropBlank(init)|..] + [last];
      }
    }
  }

  lemma {:induction false} DropBlankAfter(lines: seq<string>, blank: seq<string>)
    requires AllBlank(blank) && lines != [] && !IsBlank(lines[|lines| - 1])
    ensures DropBlank(lines + blank) == lines
  {
    var all := lines + blank;
    TrimKeepsText(all[|all| - 1]);
    if blank == [] {
      assert all == lines;
    } else {
      assert all[..|all| - 1] == lines + blank[..|blank| - 1];
      DropBlankAfter(lines, blank[..|blank| - 1]);
    }
  }

  lemma DirectiveIsText(line: string, prefix: string)
    requires Directive(line, prefix).Some?
    ensures !IsBlank(line)
  {
    TrimKeepsText(line);
    var rest := StripPrefix(Trim(line), prefix).value;
    TrimKeepsText(rest);
    assert Trim(line) == prefix + rest;
  }

  lemma {:induction false} JoinHasText(lines: seq<string>, i: nat)
    requires i < |lines| && !IsBlank(lines[i])
    ensures !IsBlank(Join(lines, "\n"))
  {
    if |lines| > 1 {
      var joined := Join(lines, "\n");
      if i == 0 {
        var c :| c in lines[0] && !IsWhitespace(c);
        assert c in joined;
      } else {
        JoinHasText(lines[1..], i - 1);
        var c :| c in Join(lines[1..], "\n") && !IsWhitespace(c);
        assert c in joined;
      }
    }
  }

  lemma JoinOfNothing()
    ensures IsBlank(Join([], "\n"))
  {
  }

  /** A layout is read as the transition it shows. */
  lemma LayoutParses(l: Layout, t: PhaseTransition)
    requires IsLayoutOf(l, t)
    ensures ParseLines(Laid(l)) == Some(t)
  {
    DirectiveIsText(l.summary, SUMMARY);
    var above := l.body + l.gap + [l.next] + l.between;
    var all := above + [l.summary];
    assert Laid(l) == all + l.after;
    DropBlankAfter(all, l.after);
    assert all[..|all| - 1] == above;
    UpperParses(l, t);
  }

  lemma UpperParses(l: Layout, t: PhaseTransition)
    requires IsLayoutOf(l, t)
    ensures ParseUpper(l.body + l.gap + [l.next] + l.between, t.summary) == Some(t)
  {
    DirectiveIsText(l.next, NEXT_SKILL);
    var upper := l.body + l.gap + [l.next];
    DropBlankAfter(upper, l.between);
    DropBlankAfter(l.body, l.gap);
    UpperWithoutNext(l.body + l.gap, l.next);
    JoinHasText(l.body, |l.body| - 1);
  }

  lemma UpperWithoutNext(above: seq<string>, next: string)
    ensures (above + [next])[..|above + [next]| - 1] == above && (above + [next])[|above + [next]| - 1] == next
  {
  }

  lemma Peel(lines: seq<string>) returns (rest: seq<string>, blank: seq<string>)
    ensures rest == DropBlank(lines) && lines == rest + blank && AllBlank(blank)
    ensures rest != [] ==> !IsBlank(rest[|rest| - 1])
  {
    DropBlankIs(lines);
    rest, blank := DropBlank(lines), lines[|DropBlank(lines)|..];
  }

  lemma Unlast(lines: seq<string>)
    requires lines != []
    ensures lines == lines[..|lines| - 1] + [lines[|lines| - 1]]
  {
  }

  /** And nothing else is read as one. */
  lemma ParsedHasLayout(lines: seq<string>) returns (l: Layout)
    requires ParseLines(lines).Some?
    ensures Laid(l) == lines && IsLayoutOf(l, ParseLines(lines).value)
  {
    var all, after := Peel(lines);
    var upper, between := Peel(all[..|all| - 1]);
    var body, gap := Peel(upper[..|upper| - 1]);
    Unlast(all);
    Unlast(upper);
    if body == [] { JoinOfNothing(); }
    l := Layout(body, gap, upper[|upper| - 1], between, all[|all| - 1], after);
  }

  /** An output is a phase transition exactly when its lines are laid out as one. */
  lemma {:induction false} TransitionExactlyWhenLaidOut(output: string, lines: seq<string>, t: PhaseTransition)
    requires lines == Lines(TrimEnd(output))
    ensures ParsedTransition(output) == Some(t) <==> exists l :: Laid(l) == lines && IsLayoutOf(l, t)
  {
    if ParseLines(lines) == Some(t) {
      var l := ParsedHasLayout(lines);
    }
    if l :| Laid(l) == lines && IsLayoutOf(l, t) { LayoutParses(l, t); }
  }

  /** A directive line is the prefix and a value with text at both ends, with nothing but
      whitespace before, between and after them. */
  predicate LaidAs(line: string, prefix: string, value: string, before: string, between: string, after: string) {
    && IsBlank(before) && IsBlank(between) && IsBlank(after)
    && value != "" && !IsWhitespace(value[0]) && !IsWhitespace(value[|value| - 1])
    && line == before + (prefix + between + value) + after
  }

  lemma {:induction false} TrimStartAfter(blank: string, s: string)
    requires IsBlank(blank) && s != "" && !IsWhitespace(s[0])
    ensures TrimStart(blank + s) == s
  {
    if blank == "" {
      assert blank + s == s;
    } else {
      assert blank[0] in blank;
      TrimStartAfter(blank[1..], s);
      assert (blank + s)[1..] == blank[1..] + s;
    }
  }

  lemma TrimBetween(before: string, s: string, after: string)
    requires IsBlank(before) && IsBlank(after)
    requires s != "" && !IsWhitespace(s[0]) && !IsWhitespace(s[|s| - 1])
    ensures Trim(before + s + after) == s
  {
    TrimEndAfter(before + s, after);
    TrimStartAfter(before, s);
  }

  lemma TrimLeavesBlanks(s: string) returns (before: string, after: string)
    ensures IsBlank(before) && IsBlank(after) && s == before + Trim(s) + after
    ensures Trim(s) != "" ==> !IsWhitespace(Trim(s)[0]) && !IsWhitespace(Trim(s)[|Trim(s)| - 1])
  {
    TrimEndIs(s);
    var e := TrimEnd(s);
    TrimStartIs(e);
    before, after := e[..|e| - |Trim(s)|], s[|e|..];
    assert e == before + Trim(s);
  }

  lemma DirectiveIsLaid(line: string, prefix: string, value: string)
    returns (before: string, between: string, after: string)
    requires Directive(line, prefix) == Some(value)
    ensures LaidAs(line, prefix, value, before, between, after)
  {
    var rest := StripPrefix(Trim(line), prefix).value;
    before, after := TrimLeavesBlanks(line);
    var tail;
    between, tail := TrimLeavesBlanks(rest);
    assert Trim(line) == prefix + rest;
    assert rest == between + value;
    assert prefix + rest == prefix + between + value;
  }

  /** A line is a directive with this value exactly if it is laid out as one. */
  lemma DirectiveExactly(line: string, prefix: string, value: string)
    requires prefix != "" && !IsWhitespace(prefix[0])
    ensures Directive(line, prefix) == Some(value)
       <==> exists before, between, after :: LaidAs(line, prefix, value, before, between, after)
  {
    if Directive(line, prefix) == Some(value) {
      var before, between, after := DirectiveIsLaid(line, prefix, value);
    }
    if before, between, after :| LaidAs(line, prefix, value, before, between, after) {
      var inner := prefix + between + value;
      TrimBetween(before, inner, after);
      assert inner[|prefix|..] == between + value;
      TrimBetween(between, value, "");
      assert between + value + "" == between + value;
    }
  }

  lemma EndedAfter(first: string, parts: seq<string>)
    requires parts != []
    ensures Ended([first] + parts) == [ChopReturn(first)] + Ended(parts)
  {
    assert ([first] + parts)[..|parts|] == [first] + parts[..|parts| - 1];
  }

  lemma LinesAfter(line: string, rest: string)
    requires '\n' !in line
    ensures Lines(line + "\n" + rest) == [ChopReturn(line)] + Lines(rest)
  {
    SplitLine(line, rest);
    SplitHasPart(rest);
    EndedAfter(line, Split(rest));
  }

  lemma LastLine(line: string)
    requires '\n' !in line
    ensures Lines(line) == if line == "" then [] else [line]
  {
    SplitLine(line, "");
    assert [line][..0] == [];
  }

  /** A line ends at a newline, whether or not a carriage return stands before it; what is
      left after the last newline is a line unless it is empty. */
  lemma LinesEndExactly(line: string, rest: string)
    requires '\n' !in line
    ensures Lines(line + "\r\n" + rest) == [line] + Lines(rest)
    ensures line == "" || line[|line| - 1] != '\r' ==> Lines(line + "\n" + rest) == [line] + Lines(rest)
    ensures Lines(line) == if line == "" then [] else [line]
  {
    var returned := line + "\r";
    assert returned[..|returned| - 1] == line;
    assert line + "\r\n" + rest == returned + "\n" + rest;
    LinesAfter(returned, rest);
    LinesAfter(line, rest);
    LastLine(line);
  }

  // ---- printing and parsing ----

  predicate NoNewline(lines: seq<string>) {
    forall i | 0 <= i < |lines| :: '\n' !in lines[i] && '\r' !in lines[i]
  }

  lemma {:induction false} SplitHasPart(s: string)
    ensures Split(s) != []
  {
  }

  lemma {:induction false} SplitLine(line: string, rest: string)
    requires '\n' !in line
    ensures Split(line) == [line]
    ensures Split(line + "\n" + rest) == [line] + Split(rest)
  {
    var s := line + "\n" + rest;
    if line == "" {
      assert s[1..] == rest;
    } else {
      SplitLine(line[1..], rest);
      assert s[1..] == line[1..] + "\n" + rest;
      assert [s[0]] + line[1..] == line;
    }
  }

  lemma {:induction false} SplitJoin(lines: seq<string>)
    requires lines != [] && NoNewline(lines)
    ensures Split(Join(lines, "\n")) == lines
  {
    if |lines| == 1 {
      SplitLine(lines[0], "");
    } else {
      SplitJoin(lines[1..]);
      SplitLine(lines[0], Join(lines[1..], "\n"));
    }
  }

  lemma {:induction false} JoinSplit(s: string)
    ensures Join(Split(s), "\n") == s
    ensures '\r' !in s ==> NoNewline(Split(s))
  {
    if s != "" {
      JoinSplit(s[1..]);
      SplitHasPart(s[1..]);
      var rest := Split(s[1..]);
      if s[0] == '\n' {
        assert ([""] + rest)[1..] == rest;
      } else {
        var head := [s[0]] + rest[0];
        assert ([head] + rest[1..])[1..] == rest[1..];
      }
    }
  }

  lemma NothingToChop(line: string)
    requires '\r' !in line
    ensures ChopReturn(line) == line
  {
    if line != "" { assert line[|line| - 1] in line; }
  }

  lemma {:induction false} LinesJoin(lines: seq<string>)
    requires lines != [] && NoNewline(lines) && lines[|lines| - 1] != ""
    ensures Lines(Join(lines, "\n")) == lines
  {
    SplitJoin(lines);
    forall i | 0 <= i < |lines| ensures ChopReturn(lines[i]) == lines[i] {
      NothingToChop(lines[i]);
    }
    var ended := lines[..|lines| - 1];
    assert seq(|ended|, i requires 0 <= i < |ended| => ChopReturn(ended[i])) == ended;
    Unlast(lines);
  }

  lemma {:induction false} TrimEndAfter(s: string, blank: string)
    requires IsBlank(blank) && s != "" && !IsWhitespace(s[|s| - 1])
    ensures TrimEnd(s + blank) == s
  {
    var all := s + blank;
    if blank == "" {
      assert all == s;
    } else {
      assert all[|all| - 1] in blank;
      assert all[..|all| - 1] == s + blank[..|blank| - 1];
      TrimEndAfter(s, blank[..|blank| - 1]);
    }
  }

  /** One line, without whitespace at either end, and not empty. */
  predicate IsValue(s: string) {
    s != "" && Trim(s) == s && '\n' !in s && '\r' !in s
  }

  lemma ValueEnds(s: string)
    requires IsValue(s)
    ensures !IsWhitespace(s[0]) && !IsWhitespace(s[|s| - 1])
  {
    TrimEndIs(s);
    TrimStartIs(TrimEnd(s));
  }

  /** A directive line, as a skill prints it. */
  lemma PrintedDirective(prefix: string, value: string)
    requires prefix != "" && !IsWhitespace(prefix[0]) && IsValue(value)
    ensures Directive(prefix + " " + value, prefix) == Some(value)
  {
    ValueEnds(value);
    var line := prefix + " " + value;
    assert line[|line| - 1] == value[|value| - 1];
    assert Trim(line) == line;
    assert line[|prefix|..] == " " + value;
    var rest := " " + value;
    assert rest[1..] == value && rest[|rest| - 1] == value[|value| - 1];
    assert TrimEnd(rest) == rest;
    assert TrimStart(value) == value;
  }

  lemma {:induction false} JoinEndsWith(lines: seq<string>)
    requires lines != [] && lines[|lines| - 1] != ""
    ensures var joined, last := Join(lines, "\n"), lines[|lines| - 1];
      joined != "" && joined[|joined| - 1] == last[|last| - 1]
  {
    if |lines| > 1 { JoinEndsWith(lines[1..]); }
  }

  /** The output of a skill that hands over. */
  function Printed(t: PhaseTransition, gap: seq<string>, between: seq<string>, tail: string): string {
    Join(Laid(LayoutOf(t, gap, between)), "\n") + tail
  }

  function LayoutOf(t: PhaseTransition, gap: seq<string>, between: seq<string>): Layout {
    Layout(Split(t.deliverable), gap, "NEXT_SKILL: " + t.nextSkill, between, "SUMMARY: " + t.summary, [])
  }

  /** A transition that a skill can print: one-line values, and a deliverable whose last
      line has text. */
  ghost predicate Printable(t: PhaseTransition) {
    && IsValue(t.nextSkill) && IsValue(t.summary) && '\r' !in t.deliverable
    && var body := Split(t.deliverable); body != [] && !IsBlank(body[|body| - 1])
  }

  /** Printing, then parsing, is the identity, whatever blank lines stand around the
      directives and whatever whitespace follows. */
  lemma PrintParse(t: PhaseTransition, gap: seq<string>, between: seq<string>, tail: string)
    requires Printable(t) && IsBlank(tail)
    requires AllBlank(gap) && NoNewline(gap) && AllBlank(between) && NoNewline(between)
    ensures ParsedTransition(Printed(t, gap, between, tail)) == Some(t)
  {
    var l := LayoutOf(t, gap, between);
    PrintedLayout(t, gap, between);
    PrintedLineByLine(t, gap, between);
    PrintedEnd(t.summary, l.summary);
    LaidEnds(l);
    PrintedLines(Laid(l), tail);
    LayoutParses(l, t);
  }

  lemma PrintedLayout(t: PhaseTransition, gap: seq<string>, between: seq<string>)
    requires Printable(t) && AllBlank(gap) && AllBlank(between)
    ensures IsLayoutOf(LayoutOf(t, gap, between), t)
  {
    JoinSplit(t.deliverable);
    PrintedSummary(t.summary);
    PrintedNextSkill(t.nextSkill);
  }

  lemma PrintedSummary(value: string)
    requires IsValue(value)
    ensures Directive("SUMMARY: " + value, SUMMARY) == Some(value)
  {
    PrintedDirective(SUMMARY, value);
    assert "SUMMARY: " + value == SUMMARY + " " + value;
  }

  lemma PrintedNextSkill(value: string)
    requires IsValue(value)
    ensures Directive("NEXT_SKILL: " + value, NEXT_SKILL) == Some(value)
  {
    PrintedDirective(NEXT_SKILL, value);
    assert "NEXT_SKILL: " + value == NEXT_SKILL + " " + value;
  }

  lemma PrintedLineByLine(t: PhaseTransition, gap: seq<string>, between: seq<string>)
    requires Printable(t) && NoNewline(gap) && NoNewline(between)
    ensures NoNewline(Laid(LayoutOf(t, gap, between)))
  {
    JoinSplit(t.deliverable);
    PrefixesAreOneLine();
    OneLine("SUMMARY: ", t.summary);
    OneLine("NEXT_SKILL: ", t.nextSkill);
    LaidHasNoNewline(LayoutOf(t, gap, between));
  }

  lemma PrintedEnd(value: string, line: string)
    requires IsValue(value) && line == "SUMMARY: " + value
    ensures line != "" && !IsWhitespace(line[|line| - 1])
  {
    ValueEnds(value);
    assert line[|line| - 1] == value[|value| - 1];
  }

  lemma PrefixesAreOneLine()
    ensures NoNewline(["SUMMARY: "]) && NoNewline(["NEXT_SKILL: "])
  {
    assert '\n' !in "SUMMARY: " && '\r' !in "SUMMARY: ";
    assert '\n' !in "NEXT_SKILL: " && '\r' !in "NEXT_SKILL: ";
  }

  lemma OneLine(prefix: string, value: string)
    requires NoNewline([prefix]) && IsValue(value)
    ensures NoNewline([prefix + value])
  {
    assert [prefix][0] == prefix;
    var line := prefix + value;
    forall i | 0 <= i < |line| ensures line[i] != '\n' && line[i] != '\r' {
      if i < |prefix| { assert line[i] in prefix; } else { assert line[i] in value; }
    }
  }

  lemma LaidEnds(l: Layout)
    requires l.after == []
    ensures Laid(l) != [] && Laid(l)[|Laid(l)| - 1] == l.summary
  {
  }

  lemma PrintedLines(lines: seq<string>, tail: string)
    requires lines != [] && NoNewline(lines) && IsBlank(tail)
    requires var last := lines[|lines| - 1]; last != "" && !IsWhitespace(last[|last| - 1])
    ensures Lines(TrimEnd(Join(lines, "\n") + tail)) == lines
  {
    JoinEndsWith(lines);
    TrimEndAfter(Join(lines, "\n"), tail);
    LinesJoin(lines);
  }

  lemma LaidHasNoNewline(l: Layout)
    requires NoNewline(l.body) && NoNewline(l.gap) && NoNewline([l.next]) && NoNewline(l.between)
      && NoNewline([l.summary]) && NoNewline(l.after)
    ensures NoNewline(Laid(l))
  {
    assert NoNewline(l.body + l.gap);
    assert NoNewline(l.body + l.gap + [l.next]);
    assert NoNewline(l.body + l.gap + [l.next] + l.between);
  }
}
