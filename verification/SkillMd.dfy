/** Skill files: frontmatter composed from a skill's fields, and split off again. */
module SkillMd {
  import opened Wrappers
  import opened Sequences

  datatype Decision = Approve | Edit | Reject | Respond

  datatype InterruptConfig = Flag(on: bool) | Decisions(allowed: seq<Decision>)

  /** What the frontmatter is made from; interrupt entries in their insertion order. */
  datatype Fields = Fields(
    name: string, description: string, tools: seq<string>,
    interruptOn: seq<(string, InterruptConfig)>, displayName: Option<string>)

  // ---------------------------------------------------------------- frontmatter

  function HexDigit(n: int): char
    requires 0 <= n < 16
  {
    if n < 10 then (0x30 + n) as char else (0x61 + n - 10) as char
  }

  function EscapeChar(c: char): string {
    if c == '"' then "\\\"" else if c == '\\' then "\\\\"
    else if c == '\U{8}' then "\\b" else if c == '\U{C}' then "\\f"
    else if c == '\n' then "\\n" else if c == '\r' then "\\r" else if c == '\t' then "\\t"
    else if (c as int) < 0x20 then "\\u00" + [HexDigit(c as int / 16), HexDigit(c as int % 16)]
    else [c]
  }

  function EscapeText(s: string): string {
    if s == "" then "" else EscapeChar(s[0]) + EscapeText(s[1..])
  }

  /** JSON.stringify of a string. */
  function Quoted(s: string): string {
    "\"" + EscapeText(s) + "\""
  }

  function DecisionName(d: Decision): string {
    match d case Approve => "approve" case Edit => "edit" case Reject => "reject" case Respond => "respond"
  }

  function ToolLines(tools: seq<string>): seq<string> {
    if tools == [] then [] else ["  - " + Quoted(tools[0])] + ToolLines(tools[1..])
  }

  function DecisionLines(allowed: seq<Decision>): seq<string> {
    if allowed == [] then [] else ["      - " + DecisionName(allowed[0])] + DecisionLines(allowed[1..])
  }

  function EntryBlock(ref: string, config: InterruptConfig): seq<string> {
    match config
    case Flag(on) => ["  " + Quoted(ref) + ": " + (if on then "true" else "false")]
    case Decisions(allowed) => ["  " + Quoted(ref) + ":", "    allowedDecisions:"] + DecisionLines(allowed)
  }

  function InterruptLines(entries: seq<(string, InterruptConfig)>): seq<string> {
    if entries == [] then []
    else
      EntryBlock(entries[0].0, entries[0].1) + InterruptLines(entries[1..])
  }

  function NameLines(f: Fields): seq<string> {
    ["name: " + Quoted(f.name), "description: " + Quoted(f.description)]
  }

  function MetadataBlock(f: Fields): seq<string> {
    match f.displayName
    case Some(shown) => if shown != "" && shown != f.name then ["metadata:", "  display-name: " + Quoted(shown)] else []
    case None => []
  }

  function ToolsBlock(f: Fields): seq<string> {
    if f.tools != [] then ["tools:"] + ToolLines(f.tools) else []
  }

  function InterruptBlock(f: Fields): seq<string> {
    if f.interruptOn != [] then ["interruptOn:"] + InterruptLines(f.interruptOn) else []
  }

  /** The lines between the fences. */
  function FrontmatterLines(f: Fields): seq<string> {
    NameLines(f) + (MetadataBlock(f) + (ToolsBlock(f) + InterruptBlock(f)))
  }

  function JoinLines(lines: seq<string>): string {
    if lines == [] then ""
    else if |lines| == 1 then lines[0]
    else lines[0] + "\n" + JoinLines(lines[1..])
  }

  // ---------------------------------------------------------------- body

  /** The white space and line ends that trimEnd removes. */
  predicate IsSpace(c: char) {
    var n := c as int;
    || 0x09 <= n <= 0x0D || n == 0x20 || n == 0xA0 || n == 0x1680 || 0x2000 <= n <= 0x200A
    || n == 0x2028 || n == 0x2029 || n == 0x202F || n == 0x205F || n == 0x3000 || n == 0xFEFF
  }

  function TrimEnd(s: string): string {
    if s != "" && IsSpace(s[|s| - 1]) then TrimEnd(s[..|s| - 1]) else s
  }

  /** The length of the line end the text starts with: CR LF, LF, or none. */
  function LineEnd(text: string): (n: nat)
    ensures n <= |text| && n <= 2
  {
    if |text| >= 2 && text[0] == '\r' && text[1] == '\n' then 2
    else if |text| >= 1 && text[0] == '\n' then 1
    else 0
  }

  function DropLineEnd(text: string): string {
    text[LineEnd(text)..]
  }

  function SkipNewlines(s: string): string
    decreases |s|
  {
    if LineEnd(s) > 0 then SkipNewlines(DropLineEnd(s)) else s
  }

  /** The body without surrounding blank lines and trailing space. */
  function NormalBody(body: string): string {
    TrimEnd(SkipNewlines(body))
  }

  // ---------------------------------------------------------------- composing

  const CLOSING: string := "\n---"

  /** What follows the closing fence's line: nothing, or a blank line and the body. */
  function Appendix(body: string): string {
    if NormalBody(body) != "" then "\n" + NormalBody(body) + "\n" else ""
  }

  function Compose(f: Fields, body: string): string {
    "---\n" + (JoinLines(FrontmatterLines(f)) + (CLOSING + ("\n" + Appendix(body))))
  }

  method ComposeSkillMd(f: Fields, body: string) returns (text: string)
    ensures text == Compose(f, body)
  {
    var bodyStart := 0;
    while true
      invariant bodyStart <= |body| && SkipNewlines(body[bodyStart..]) == SkipNewlines(body)
      decreases |body| - bodyStart
    {
      SkipStep(body, bodyStart);
      if bodyStart + 1 < |body| && body[bodyStart] == '\r' && body[bodyStart + 1] == '\n' {
        bodyStart := bodyStart + 2;
      } else if bodyStart < |body| && body[bodyStart] == '\n' {
        bodyStart := bodyStart + 1;
      } else {
        break;
      }
    }
    var trimmed := TrimEnd(body[bodyStart..]);
    var appendix := if trimmed != "" then "\n" + trimmed + "\n" else "";
    return "---\n" + (JoinLines(FrontmatterLines(f)) + (CLOSING + ("\n" + appendix)));
  }

  lemma SkipStep(body: string, from: nat)
    requires from <= |body|
    ensures var n := LineEnd(body[from..]);
      && n == (if from + 1 < |body| && body[from] == '\r' && body[from + 1] == '\n' then 2
         else if from < |body| && body[from] == '\n' then 1 else 0)
      && SkipNewlines(body[from..]) == if n > 0 then SkipNewlines(body[from + n..]) else body[from..]
  {
    var n := LineEnd(body[from..]);
    assert body[from..][n..] == body[from + n..];
  }

  // ---------------------------------------------------------------- splitting

  predicate Fence(text: string) {
    |text| >= 3 && text[0] == '-' && text[1] == '-' && text[2] == '-'
  }

  predicate ClosesAt(text: string) {
    LineEnd(text) > 0 && Fence(DropLineEnd(text))
  }

  /** A text cut at the first place where a line end and the closing fence follow. */
  datatype Cut = Cut(front: string, tail: string)

  function Close(text: string): (r: Option<Cut>)
    ensures r.Some? ==> ClosesAt(r.value.tail)
  {
    if ClosesAt(text) then Some(Cut("", text))
    else if text == "" then None
    else
      match Close(text[1..])
      case Some(cut) => Some(cut.(front := [text[0]] + cut.front))
      case None => None
  }

  lemma {:induction false} CloseCuts(text: string)
    requires Close(text).Some?
    ensures Close(text).value.front + Close(text).value.tail == text
  {
    if !ClosesAt(text) {
      CloseCuts(text[1..]);
      assert text == [text[0]] + text[1..];
    }
  }

  /** It is the first such place: wherever a text can be cut, it is cut no later. */
  lemma {:induction false} CloseIsFirst(front: string, tail: string)
    requires ClosesAt(tail)
    ensures Close(front + tail).Some? && |Close(front + tail).value.front| <= |front|
  {
    if front == "" {
      assert front + tail == tail;
    } else {
      assert (front + tail)[1..] == front[1..] + tail;
      CloseIsFirst(front[1..], tail);
    }
  }

  function Skip(text: string, c: char): string {
    if text != "" && text[0] == c then text[1..] else text
  }

  datatype Parts = Parts(frontmatter: string, body: string)

  function Split(raw: string): Parts {
    var start := Skip(raw, '\U{FEFF}');
    if !Fence(start) || LineEnd(start[3..]) == 0 then Parts("", raw)
    else
      var rest := DropLineEnd(start[3..]);
      match Close(rest)
      case None => Parts("", raw)
      case Some(cut) => Parts(cut.front, AfterClose(cut.tail))
  }

  /** The body behind a closing fence: the rest of the fence's line end is dropped, then one blank line. */
  function AfterClose(text: string): string
    requires ClosesAt(text)
  {
    DropLineEnd(Skip(Skip(DropLineEnd(text)[3..], '\r'), '\n'))
  }

  // ---------------------------------------------------------------- the round trip

  /** No line end in it, and not starting like a fence. */
  predicate CleanLine(line: string) {
    line != "" && line[0] != '-' && '\n' !in line && '\r' !in line
  }

  lemma {:induction false} EscapedIsClean(s: string)
    ensures '\n' !in EscapeText(s) && '\r' !in EscapeText(s)
  {
    if s != "" {
      EscapedIsClean(s[1..]);
    }
  }

  lemma QuotedLine(prefix: string, s: string)
    requires CleanLine(prefix)
    ensures CleanLine(prefix + Quoted(s))
  {
    EscapedIsClean(s);
  }

  predicate CleanLines(lines: seq<string>) {
    forall i :: 0 <= i < |lines| ==> CleanLine(lines[i])
  }

  lemma {:induction false} ToolLinesClean(tools: seq<string>)
    ensures CleanLines(ToolLines(tools))
  {
    if tools != [] {
      QuotedLine("  - ", tools[0]);
      ToolLinesClean(tools[1..]);
    }
  }

  lemma {:induction false} DecisionLinesClean(allowed: seq<Decision>)
    ensures CleanLines(DecisionLines(allowed))
  {
    if allowed != [] {
      DecisionLinesClean(allowed[1..]);
    }
  }

  lemma {:induction false} InterruptLinesClean(entries: seq<(string, InterruptConfig)>)
    ensures CleanLines(InterruptLines(entries))
  {
    if entries != [] {
      QuotedLine("  ", entries[0].0);
      InterruptLinesClean(entries[1..]);
      if entries[0].1.Decisions? {
        DecisionLinesClean(entries[0].1.allowed);
      }
    }
  }

  lemma CleanConcat(a: seq<string>, b: seq<string>)
    requires CleanLines(a) && CleanLines(b)
    ensures CleanLines(a + b)
  {
  }

  lemma NamesClean(f: Fields)
    ensures CleanLines(NameLines(f))
  {
    QuotedLine("name: ", f.name);
    QuotedLine("description: ", f.description);
  }

  lemma MetadataClean(f: Fields)
    ensures CleanLines(MetadataBlock(f))
  {
    if f.displayName.Some? {
      QuotedLine("  display-name: ", f.displayName.value);
    }
  }

  lemma ToolsClean(f: Fields)
    ensures CleanLines(ToolsBlock(f))
  {
    ToolLinesClean(f.tools);
    CleanConcat(["tools:"], ToolLines(f.tools));
  }

  lemma InterruptsClean(f: Fields)
    ensures CleanLines(InterruptBlock(f))
  {
    InterruptLinesClean(f.interruptOn);
    CleanConcat(["interruptOn:"], InterruptLines(f.interruptOn));
  }

  lemma FrontmatterClean(f: Fields)
    ensures FrontmatterLines(f) != [] && CleanLines(FrontmatterLines(f))
  {
    NamesClean(f);
    MetadataClean(f);
    ToolsClean(f);
    InterruptsClean(f);
    CleanConcat(ToolsBlock(f), InterruptBlock(f));
    CleanConcat(MetadataBlock(f), ToolsBlock(f) + InterruptBlock(f));
    CleanConcat(NameLines(f), MetadataBlock(f) + (ToolsBlock(f) + InterruptBlock(f)));
  }

  lemma CloseLater(c: char, text: string, cut: Cut)
    requires !ClosesAt([c] + text) && Close(text) == Some(cut)
    ensures Close([c] + text) == Some(Cut([c] + cut.front, cut.tail))
  {
    assert ([c] + text)[1..] == text;
  }

  /** A stretch without line ends does not close. */
  lemma {:induction false} CloseAfterLine(line: string, text: string, cut: Cut)
    requires '\n' !in line && '\r' !in line && Close(text) == Some(cut)
    ensures Close(line + text) == Some(Cut(line + cut.front, cut.tail))
  {
    if line == "" {
      EmptyIsUnit(text);
      EmptyIsUnit(cut.front);
    } else {
      var c, rest := line[0], line[1..];
      assert c in line;
      CloseAfterLine(rest, text, cut);
      CloseLater(c, rest + text, Cut(rest + cut.front, cut.tail));
      TailOfConcat(line, text);
      TailOfConcat(line, cut.front);
    }
  }

  lemma CloseHere(rest: string)
    ensures ClosesAt(CLOSING + rest) && DropLineEnd(CLOSING + rest)[3..] == rest
  {
    assert DropLineEnd(CLOSING + rest) == "---" + rest;
  }

  /** The closing fence is found right after the last line, whatever follows it. */
  lemma {:induction false} CloseAfterLines(lines: seq<string>, rest: string)
    requires lines != [] && CleanLines(lines)
    ensures Close(JoinLines(lines) + (CLOSING + rest)) == Some(Cut(JoinLines(lines), CLOSING + rest))
  {
    var end := CLOSING + rest;
    if |lines| == 1 {
      CloseHere(rest);
      CloseAfterLine(lines[0], end, Cut("", end));
      assert lines[0] + "" == lines[0];
    } else {
      var tail := JoinLines(lines[1..]);
      CloseAfterLines(lines[1..], rest);
      FirstOfLines(lines[1..]);
      CloseNextLine(lines[0], tail, end);
    }
  }

  lemma NewlineBeforeText(text: string)
    requires text != "" && text[0] != '-'
    ensures !ClosesAt(['\n'] + text)
  {
    assert DropLineEnd(['\n'] + text) == text;
  }

  lemma CloseNextLine(line: string, tail: string, end: string)
    requires CleanLine(line) && tail != "" && tail[0] != '-' && Close(tail + end) == Some(Cut(tail, end))
    ensures Close(line + "\n" + tail + end) == Some(Cut(line + "\n" + tail, end))
  {
    var text := tail + end;
    NewlineBeforeText(text);
    CloseLater('\n', text, Cut(tail, end));
    CloseAfterLine(line, ['\n'] + text, Cut(['\n'] + tail, end));
    Assoc(line, ['\n'], tail);
    Assoc(line, ['\n'], text);
    Assoc(line + ['\n'], tail, end);
  }

  lemma FirstOfLines(lines: seq<string>)
    requires lines != [] && lines[0] != ""
    ensures JoinLines(lines) != "" && JoinLines(lines)[0] == lines[0][0]
  {
  }

  function SplitBody(body: string): string {
    if NormalBody(body) != "" then NormalBody(body) + "\n" else ""
  }

  /** Splitting a composed file gives back exactly its frontmatter lines and the normalised body. */
  lemma SplitCompose(f: Fields, body: string)
    ensures Split(Compose(f, body)) == Parts(JoinLines(FrontmatterLines(f)), SplitBody(body))
  {
    var lines := FrontmatterLines(f);
    var tail := "\n" + Appendix(body);
    FrontmatterClean(f);
    CloseAfterLines(lines, tail);
    CloseHere(tail);
    SplitPast(JoinLines(lines) + (CLOSING + tail));
    AfterFence(body);
  }

  lemma SplitPast(rest: string)
    requires Close(rest).Some?
    ensures Split("---\n" + rest) == Parts(Close(rest).value.front, AfterClose(Close(rest).value.tail))
  {
    var raw := "---\n" + rest;
    assert raw[0] == '-' && Skip(raw, '\U{FEFF}') == raw && Fence(raw);
    var past := raw[3..];
    assert past[0] == '\n' && past[1..] == rest;
    assert LineEnd(past) == 1 && DropLineEnd(past) == rest;
  }

  lemma AfterFence(body: string)
    ensures ClosesAt(CLOSING + ("\n" + Appendix(body)))
    ensures AfterClose(CLOSING + ("\n" + Appendix(body))) == SplitBody(body)
  {
    var after := Appendix(body);
    CloseHere("\n" + after);
    assert Skip("\n" + after, '\r') == "\n" + after;
    assert Skip("\n" + after, '\n') == after;
    assert DropLineEnd(after) == SplitBody(body);
  }

  lemma {:induction false} TrimEndPrefix(s: string)
    ensures TrimEnd(s) <= s && (TrimEnd(s) != "" ==> !IsSpace(TrimEnd(s)[|TrimEnd(s)| - 1]))
  {
    if s != "" && IsSpace(s[|s| - 1]) {
      TrimEndPrefix(s[..|s| - 1]);
    }
  }

  lemma {:induction false} SkipNewlinesStops(s: string)
    ensures LineEnd(SkipNewlines(s)) == 0
    decreases |s|
  {
    if LineEnd(s) > 0 {
      SkipNewlinesStops(DropLineEnd(s));
    }
  }

  /** Normalising is idempotent through the split body. */
  lemma NormalBodyStable(body: string)
    ensures NormalBody(SplitBody(body)) == NormalBody(body)
  {
    var t := NormalBody(body);
    SkipNewlinesStops(body);
    TrimEndPrefix(SkipNewlines(body));
    if t != "" {
      assert t[0] == SkipNewlines(body)[0] && (|t| >= 2 ==> t[1] == SkipNewlines(body)[1]);
      TrimEndStable(t);
      assert LineEnd(t + "\n") == 0;
    }
  }

  lemma TrimEndStable(t: string)
    requires t != "" && !IsSpace(t[|t| - 1])
    ensures TrimEnd(t + "\n") == t && t != "\r"
  {
    var back := t + "\n";
    assert back[..|back| - 1] == t && IsSpace(back[|back| - 1]);
    assert IsSpace('\r');
  }

  /** Composing again from the split body gives the same file. */
  lemma ComposeAgain(f: Fields, body: string)
    ensures Compose(f, Split(Compose(f, body)).body) == Compose(f, body)
  {
    SplitCompose(f, body);
    NormalBodyStable(body);
  }
}
