/** That a skill file loses nothing: the fields and the body can be told apart from its text. */
module SkillFields {
  import opened Wrappers
  import opened Sequences
  import opened SkillMd

  // ---------------------------------------------------------------- quoted text

  lemma EscapeStart(c: char)
    ensures EscapeChar(c) != "" && EscapeChar(c)[0] != '"'
    ensures EscapeChar(c)[0] == '\\' || EscapeChar(c) == [c]
  {
  }

  /** No escape is a beginning of another. */
  lemma EscapePrefix(c: char, d: char, s: string, t: string)
    requires EscapeChar(c) + s == EscapeChar(d) + t
    ensures c == d && s == t
  {
    var u, v := EscapeChar(c) + s, EscapeChar(d) + t;
    EscapeStart(c);
    EscapeStart(d);
    assert u[0] == v[0];
    if EscapeChar(c)[0] == '\\' {
      assert u[1] == v[1];
      assert |EscapeChar(c)| == |EscapeChar(d)|;
      if |EscapeChar(c)| == 6 {
        assert u[4] == v[4] && u[5] == v[5];
      }
    }
    DropPrefix(EscapeChar(c), s);
    DropPrefix(EscapeChar(d), t);
  }

  /** A quoted text ends at its own closing quote. */
  lemma {:induction false} QuotedEnds(a: string, b: string, s: string, t: string)
    requires EscapeText(a) + ("\"" + s) == EscapeText(b) + ("\"" + t)
    ensures a == b && s == t
    decreases |a|
  {
    if a == "" || b == "" {
      QuotedEmpty(a, b, s, t);
    } else {
      Assoc(EscapeChar(a[0]), EscapeText(a[1..]), "\"" + s);
      Assoc(EscapeChar(b[0]), EscapeText(b[1..]), "\"" + t);
      EscapePrefix(a[0], b[0], EscapeText(a[1..]) + ("\"" + s), EscapeText(b[1..]) + ("\"" + t));
      QuotedEnds(a[1..], b[1..], s, t);
      HeadAndTail(a);
      HeadAndTail(b);
    }
  }

  lemma QuotedEmpty(a: string, b: string, s: string, t: string)
    requires EscapeText(a) + ("\"" + s) == EscapeText(b) + ("\"" + t) && (a == "" || b == "")
    ensures a == b && s == t
  {
    var u, v := EscapeText(a) + ("\"" + s), EscapeText(b) + ("\"" + t);
    assert u[0] == v[0];
    if a != "" {
      EscapeStart(a[0]);
    }
    if b != "" {
      EscapeStart(b[0]);
    }
    assert u[1..] == v[1..];
    if a == "" && b == "" {
      assert u[1..] == s && v[1..] == t;
    }
  }

  lemma AfterQuote(a: string, s: string)
    ensures Quoted(a) + s != "" && (Quoted(a) + s)[1..] == EscapeText(a) + ("\"" + s)
  {
  }

  /** A line made of a fixed beginning, a quoted text and an end tells the text and the end. */
  lemma LineTells(prefix: string, a: string, b: string, s: string, t: string)
    requires prefix + (Quoted(a) + s) == prefix + (Quoted(b) + t)
    ensures a == b && s == t
  {
    DropPrefix(prefix, Quoted(a) + s);
    DropPrefix(prefix, Quoted(b) + t);
    AfterQuote(a, s);
    AfterQuote(b, t);
    QuotedEnds(a, b, s, t);
  }

  lemma WholeLineTells(prefix: string, a: string, b: string)
    requires prefix + Quoted(a) == prefix + Quoted(b)
    ensures a == b
  {
    EmptyIsUnit(Quoted(a));
    EmptyIsUnit(Quoted(b));
    LineTells(prefix, a, b, "", "");
  }

  // ---------------------------------------------------------------- lists of lines

  /** The lines do not go on with an item of this indentation. */
  predicate NoItem(dash: string, lines: seq<string>) {
    lines == [] || !(dash <= lines[0])
  }

  lemma ToolHead(tools: seq<string>, x: seq<string>)
    requires tools != []
    ensures var lines := ToolLines(tools) + x;
      && lines != [] && lines[0] == "  - " + Quoted(tools[0]) && !NoItem("  - ", lines)
      && lines[1..] == ToolLines(tools[1..]) + x
  {
    var first := ["  - " + Quoted(tools[0])];
    Assoc(first, ToolLines(tools[1..]), x);
    DropPrefix(first, ToolLines(tools[1..]) + x);
    DropPrefix("  - ", Quoted(tools[0]));
  }

  lemma {:induction false} ToolsTell(a: seq<string>, b: seq<string>, x: seq<string>, y: seq<string>)
    requires ToolLines(a) + x == ToolLines(b) + y && NoItem("  - ", x) && NoItem("  - ", y)
    ensures a == b && x == y
    decreases |a|
  {
    EmptyIsUnit(x);
    EmptyIsUnit(y);
    if a != [] {
      ToolHead(a, x);
    }
    if b != [] {
      ToolHead(b, y);
    }
    if a != [] && b != [] {
      WholeLineTells("  - ", a[0], b[0]);
      ToolsTell(a[1..], b[1..], x, y);
      HeadAndTail(a);
      HeadAndTail(b);
    }
  }

  lemma DecisionTells(d: Decision, e: Decision)
    requires "      - " + DecisionName(d) == "      - " + DecisionName(e)
    ensures d == e
  {
    DropPrefix("      - ", DecisionName(d));
    DropPrefix("      - ", DecisionName(e));
    assert DecisionName(d)[2] == DecisionName(e)[2] && |DecisionName(d)| == |DecisionName(e)|;
  }

  lemma DecisionHead(allowed: seq<Decision>, x: seq<string>)
    requires allowed != []
    ensures var lines := DecisionLines(allowed) + x;
      && lines != [] && lines[0] == "      - " + DecisionName(allowed[0]) && !NoItem("      - ", lines)
      && lines[1..] == DecisionLines(allowed[1..]) + x
  {
    var first := ["      - " + DecisionName(allowed[0])];
    Assoc(first, DecisionLines(allowed[1..]), x);
    DropPrefix(first, DecisionLines(allowed[1..]) + x);
    DropPrefix("      - ", DecisionName(allowed[0]));
  }

  lemma {:induction false} DecisionsTell(a: seq<Decision>, b: seq<Decision>, x: seq<string>, y: seq<string>)
    requires DecisionLines(a) + x == DecisionLines(b) + y && NoItem("      - ", x) && NoItem("      - ", y)
    ensures a == b && x == y
    decreases |a|
  {
    EmptyIsUnit(x);
    EmptyIsUnit(y);
    if a != [] {
      DecisionHead(a, x);
    }
    if b != [] {
      DecisionHead(b, y);
    }
    if a != [] && b != [] {
      DecisionTells(a[0], b[0]);
      DecisionsTell(a[1..], b[1..], x, y);
      HeadAndTail(a);
      HeadAndTail(b);
    }
  }

  /** What follows the reference on an entry's first line. */
  function EntryEnd(config: InterruptConfig): string {
    match config case Flag(on) => if on then ": true" else ": false" case Decisions(_) => ":"
  }

  function EntryRest(config: InterruptConfig): seq<string> {
    match config
    case Flag(_) => []
    case Decisions(allowed) => ["    allowedDecisions:"] + DecisionLines(allowed)
  }

  function EntryLine(ref: string, config: InterruptConfig): (line: string)
    ensures !("      - " <= line)
  {
    var line := "  " + (Quoted(ref) + EntryEnd(config));
    assert line[2] == '"' && "      - "[2] == ' ';
    line
  }

  lemma EntryBlockLines(ref: string, config: InterruptConfig)
    ensures EntryBlock(ref, config) == [EntryLine(ref, config)] + EntryRest(config)
  {
    var q := Quoted(ref);
    match config
    case Flag(on) =>
      var word := if on then "true" else "false";
      assert "  " + q + ": " + word == "  " + (q + (": " + word));
      assert EntryEnd(config) == ": " + word;
    case Decisions(allowed) =>
      assert "  " + q + ":" == "  " + (q + ":");
  }

  lemma EntryLines(entries: seq<(string, InterruptConfig)>)
    requires entries != []
    ensures var (ref, config) := entries[0]; var lines := InterruptLines(entries);
      && lines != [] && lines[0] == EntryLine(ref, config) && NoItem("      - ", lines)
      && lines[1..] == EntryRest(config) + InterruptLines(entries[1..])
  {
    EntryBlockLines(entries[0].0, entries[0].1);
    var first, rest := [EntryLine(entries[0].0, entries[0].1)], InterruptLines(entries[1..]);
    Assoc(first, EntryRest(entries[0].1), rest);
    DropPrefix(first, EntryRest(entries[0].1) + rest);
  }

  lemma {:induction false} InterruptsTell(a: seq<(string, InterruptConfig)>, b: seq<(string, InterruptConfig)>)
    requires InterruptLines(a) == InterruptLines(b)
    ensures a == b
    decreases |a|
  {
    if a != [] {
      EntryLines(a);
    }
    if b != [] {
      EntryLines(b);
    }
    if a != [] && b != [] {
      LineTells("  ", a[0].0, b[0].0, EntryEnd(a[0].1), EntryEnd(b[0].1));
      EntryTells(a[0].1, b[0].1, a[1..], b[1..]);
      InterruptsTell(a[1..], b[1..]);
      HeadAndTail(a);
      HeadAndTail(b);
    }
  }

  lemma EntryTells(c: InterruptConfig, d: InterruptConfig,
                   x: seq<(string, InterruptConfig)>, y: seq<(string, InterruptConfig)>)
    requires EntryEnd(c) == EntryEnd(d) && EntryRest(c) + InterruptLines(x) == EntryRest(d) + InterruptLines(y)
    ensures c == d && InterruptLines(x) == InterruptLines(y)
  {
    if x != [] {
      EntryLines(x);
    }
    if y != [] {
      EntryLines(y);
    }
    match c
    case Flag(on) =>
      assert EntryEnd(c)[|EntryEnd(c)| - 1] == 'e';
      assert d.Flag? && |EntryEnd(c)| == (if on then 6 else 7);
      EmptyIsUnit(InterruptLines(x));
      EmptyIsUnit(InterruptLines(y));
    case Decisions(allowed) =>
      assert |EntryEnd(c)| == 1 && d.Decisions?;
      var head := ["    allowedDecisions:"];
      Assoc(head, DecisionLines(allowed), InterruptLines(x));
      Assoc(head, DecisionLines(d.allowed), InterruptLines(y));
      DropPrefix(head, DecisionLines(allowed) + InterruptLines(x));
      DropPrefix(head, DecisionLines(d.allowed) + InterruptLines(y));
      DecisionsTell(allowed, d.allowed, InterruptLines(x), InterruptLines(y));
  }

  // ---------------------------------------------------------------- the frontmatter

  /** The display name that is worth writing down. */
  function Shown(f: Fields): Option<string> {
    if f.displayName.Some? && f.displayName.value != "" && f.displayName.value != f.name then f.displayName else None
  }

  lemma ToolsHead(f: Fields)
    ensures NoItem("  - ", InterruptBlock(f)) && (InterruptBlock(f) != [] ==> InterruptBlock(f)[0][0] == 'i')
    ensures f.tools != [] ==>
      var lines := ToolsBlock(f) + InterruptBlock(f);
      lines != [] && lines[0][0] == 't' && lines[1..] == ToolLines(f.tools) + InterruptBlock(f)
    ensures f.tools == [] ==> ToolsBlock(f) + InterruptBlock(f) == InterruptBlock(f)
  {
    var interrupts := "interruptOn:";
    assert interrupts[0] == 'i' && "  - "[0] == ' ';
    EmptyIsUnit(InterruptBlock(f));
    if f.tools != [] {
      Assoc(["tools:"], ToolLines(f.tools), InterruptBlock(f));
      DropPrefix(["tools:"], ToolLines(f.tools) + InterruptBlock(f));
    }
  }

  lemma BlocksTell(f: Fields, g: Fields)
    requires ToolsBlock(f) + InterruptBlock(f) == ToolsBlock(g) + InterruptBlock(g)
    ensures f.tools == g.tools && f.interruptOn == g.interruptOn
  {
    ToolsHead(f);
    ToolsHead(g);
    if f.tools != [] && g.tools != [] {
      ToolsTell(f.tools, g.tools, InterruptBlock(f), InterruptBlock(g));
    }
    InterruptBlockTells(f, g);
  }

  lemma InterruptBlockTells(f: Fields, g: Fields)
    requires InterruptBlock(f) == InterruptBlock(g)
    ensures f.interruptOn == g.interruptOn
  {
    if f.interruptOn != [] && g.interruptOn != [] {
      DropPrefix(["interruptOn:"], InterruptLines(f.interruptOn));
      DropPrefix(["interruptOn:"], InterruptLines(g.interruptOn));
      InterruptsTell(f.interruptOn, g.interruptOn);
    }
  }

  lemma MetadataTells(f: Fields, g: Fields)
    requires f.name == g.name
    requires MetadataBlock(f) + (ToolsBlock(f) + InterruptBlock(f))
      == MetadataBlock(g) + (ToolsBlock(g) + InterruptBlock(g))
    ensures Shown(f) == Shown(g) && ToolsBlock(f) + InterruptBlock(f) == ToolsBlock(g) + InterruptBlock(g)
  {
    var u := MetadataBlock(f) + (ToolsBlock(f) + InterruptBlock(f));
    var v := MetadataBlock(g) + (ToolsBlock(g) + InterruptBlock(g));
    var metadata := "metadata:";
    assert metadata[0] == 'm' && "tools:"[0] == 't' && "interruptOn:"[0] == 'i';
    if Shown(f).Some? || Shown(g).Some? {
      assert u != [] && v != [] && u[0] == v[0];
      assert Shown(f).Some? && Shown(g).Some?;
      assert u[1] == v[1];
      WholeLineTells("  display-name: ", Shown(f).value, Shown(g).value);
    }
    DropPrefix(MetadataBlock(f), ToolsBlock(f) + InterruptBlock(f));
    DropPrefix(MetadataBlock(g), ToolsBlock(g) + InterruptBlock(g));
  }

  /** The frontmatter tells all fields, of the display name what is worth writing down. */
  lemma LinesTellFields(f: Fields, g: Fields)
    requires FrontmatterLines(f) == FrontmatterLines(g)
    ensures f.name == g.name && f.description == g.description && Shown(f) == Shown(g)
    ensures f.tools == g.tools && f.interruptOn == g.interruptOn
  {
    var u, v := FrontmatterLines(f), FrontmatterLines(g);
    assert u[0] == v[0] && u[1] == v[1];
    WholeLineTells("name: ", f.name, g.name);
    WholeLineTells("description: ", f.description, g.description);
    DropPrefix(NameLines(f), MetadataBlock(f) + (ToolsBlock(f) + InterruptBlock(f)));
    DropPrefix(NameLines(g), MetadataBlock(g) + (ToolsBlock(g) + InterruptBlock(g)));
    MetadataTells(f, g);
    BlocksTell(f, g);
  }

  // ---------------------------------------------------------------- the file

  lemma LineStops(line: string, s: string)
    requires '\n' !in line
    ensures var u := line + ("\n" + s); u[|line|] == '\n' && forall i :: 0 <= i < |line| ==> u[i] != '\n'
  {
    var u := line + ("\n" + s);
    forall i | 0 <= i < |line| ensures u[i] != '\n' {
      assert u[i] == line[i] && line[i] in line;
    }
  }

  lemma FirstLineTells(a: string, b: string, s: string, t: string)
    requires '\n' !in a && '\n' !in b && a + ("\n" + s) == b + ("\n" + t)
    ensures a == b && s == t
  {
    LineStops(a, s);
    LineStops(b, t);
    DropPrefix(a, "\n" + s);
    DropPrefix(b, "\n" + t);
    DropPrefix("\n", s);
    DropPrefix("\n", t);
  }

  lemma ManyLines(lines: seq<string>)
    requires |lines| > 1
    ensures '\n' in JoinLines(lines)
  {
    assert JoinLines(lines)[|lines[0]|] == '\n';
  }

  lemma {:induction false} JoinTells(a: seq<string>, b: seq<string>)
    requires a != [] && b != [] && JoinLines(a) == JoinLines(b)
    requires (forall line :: line in a ==> '\n' !in line) && (forall line :: line in b ==> '\n' !in line)
    ensures a == b
    decreases |a|
  {
    assert a[0] in a && b[0] in b;
    if |a| > 1 {
      ManyLines(a);
    }
    if |b| > 1 {
      ManyLines(b);
    }
    if |a| > 1 && |b| > 1 {
      Assoc(a[0], "\n", JoinLines(a[1..]));
      Assoc(b[0], "\n", JoinLines(b[1..]));
      FirstLineTells(a[0], b[0], JoinLines(a[1..]), JoinLines(b[1..]));
      JoinTells(a[1..], b[1..]);
      HeadAndTail(a);
      HeadAndTail(b);
    } else {
      assert a == [a[0]] && b == [b[0]];
    }
  }

  /** Two skills with the same file have the same fields and, but for surrounding blank space, the same body. */
  lemma FileTellsSkill(f: Fields, body: string, g: Fields, other: string)
    requires Compose(f, body) == Compose(g, other)
    ensures f.name == g.name && f.description == g.description && Shown(f) == Shown(g)
    ensures f.tools == g.tools && f.interruptOn == g.interruptOn
    ensures NormalBody(body) == NormalBody(other)
  {
    SplitCompose(f, body);
    SplitCompose(g, other);
    FrontmatterClean(f);
    FrontmatterClean(g);
    JoinTells(FrontmatterLines(f), FrontmatterLines(g));
    LinesTellFields(f, g);
    BodyTells(body, other);
  }

  lemma BodyTells(body: string, other: string)
    requires SplitBody(body) == SplitBody(other)
    ensures NormalBody(body) == NormalBody(other)
  {
    if NormalBody(body) != "" && NormalBody(other) != "" {
      assert SplitBody(body)[..|SplitBody(body)| - 1] == NormalBody(body);
      assert SplitBody(other)[..|SplitBody(other)| - 1] == NormalBody(other);
    }
  }

  // ---------------------------------------------------------------- the body

  /** Nothing but line ends, CR LF or LF. */
  predicate OnlyLineEnds(s: string)
    decreases |s|
  {
    s == "" || (LineEnd(s) > 0 && OnlyLineEnds(DropLineEnd(s)))
  }

  /** What normalising takes off the front and the back. */
  function Lead(body: string): string
    requires |SkipNewlines(body)| <= |body|
  {
    body[..|body| - |SkipNewlines(body)|]
  }

  lemma {:induction false} SkipTakesLineEnds(body: string)
    ensures |SkipNewlines(body)| <= |body| && body == Lead(body) + SkipNewlines(body)
    ensures OnlyLineEnds(Lead(body)) && LineEnd(SkipNewlines(body)) == 0
    decreases |body|
  {
    var n := LineEnd(body);
    if n > 0 {
      SkipTakesLineEnds(body[n..]);
      var lead := Lead(body[n..]);
      assert Lead(body) == body[..n] + lead;
      assert LineEnd(body[..n] + lead) == n && (body[..n] + lead)[n..] == lead;
    }
  }

  lemma {:induction false} TrimTakesSpace(s: string)
    ensures TrimEnd(s) <= s && forall i :: |TrimEnd(s)| <= i < |s| ==> IsSpace(s[i])
    ensures TrimEnd(s) != "" ==> !IsSpace(TrimEnd(s)[|TrimEnd(s)| - 1])
  {
    if s != "" && IsSpace(s[|s| - 1]) {
      TrimTakesSpace(s[..|s| - 1]);
    }
  }

  function Trail(s: string): string
    requires |TrimEnd(s)| <= |s|
  {
    s[|TrimEnd(s)|..]
  }

  lemma TrailIsSpace(s: string)
    ensures |TrimEnd(s)| <= |s| && s == TrimEnd(s) + Trail(s) && forall c :: c in Trail(s) ==> IsSpace(c)
  {
    TrimTakesSpace(s);
    SplitAt(s, |TrimEnd(s)|);
  }

  lemma PrefixStops(a: string, s: string)
    requires a <= s && LineEnd(s) == 0
    ensures LineEnd(a) == 0
  {
  }

  /** The text is what was taken off the front, the middle, and nothing but white space. */
  predicate Between(body: string, lead: string, middle: string, trail: string) {
    body == lead + (middle + trail) && OnlyLineEnds(lead) && forall c :: c in trail ==> IsSpace(c)
  }

  /** The normal body is the body without the line ends before it and the white space behind it. */
  lemma NormalBodyExactly(body: string)
    ensures |SkipNewlines(body)| <= |body| && |TrimEnd(SkipNewlines(body))| <= |SkipNewlines(body)|
    ensures Between(body, Lead(body), NormalBody(body), Trail(SkipNewlines(body)))
    ensures LineEnd(NormalBody(body)) == 0
    ensures NormalBody(body) != "" ==> !IsSpace(NormalBody(body)[|NormalBody(body)| - 1])
  {
    var rest := SkipNewlines(body);
    SkipTakesLineEnds(body);
    TrailIsSpace(rest);
    TrimTakesSpace(rest);
    PrefixStops(TrimEnd(rest), rest);
  }
}
