/** What splitting takes for frontmatter, of any text at all. */
module SkillSplitting {
  import opened SkillMd

  predicate IsLineEnd(s: string) {
    s == "\n" || s == "\r\n"
  }

  /** Perhaps a byte order mark, a line of three dashes, the front, and a line that starts with three dashes. */
  ghost predicate Fenced(raw: string, front: string, tail: string) {
    exists mark, opening, closing ::
      && (mark == "" || mark == "\U{FEFF}") && IsLineEnd(opening) && IsLineEnd(closing)
      && raw == mark + ("---" + (opening + (front + (closing + ("---" + tail)))))
  }

  /** The body behind the closing dashes: less one line end, or a lone return, and less one blank line. */
  ghost predicate Behind(tail: string, body: string) {
    exists ret, newline, blank ::
      && tail == ret + (newline + (blank + body))
      && (ret == "\r" || (ret == "" && !("\r" <= tail)))
      && (newline == "\n" || (newline == "" && !("\n" <= blank + body)))
      && (IsLineEnd(blank) || (blank == "" && LineEnd(body) == 0))
  }

  lemma LineEndTaken(s: string)
    requires LineEnd(s) > 0
    ensures IsLineEnd(s[..LineEnd(s)]) && s == s[..LineEnd(s)] + DropLineEnd(s)
  {
  }

  lemma LineEndGiven(end: string, s: string)
    requires IsLineEnd(end)
    ensures LineEnd(end + s) == |end| && DropLineEnd(end + s) == s
  {
  }

  lemma DashesTaken(s: string)
    requires Fence(s)
    ensures s == "---" + s[3..]
  {
  }

  lemma DashesGiven(s: string)
    ensures Fence("---" + s) && ("---" + s)[3..] == s
  {
  }

  lemma SkipTakes(s: string, c: char)
    ensures s == (if [c] <= s then [c] else "") + Skip(s, c)
  {
  }

  lemma BehindTail(tail: string, ret: string, newline: string, rest: string)
    requires tail == ret + (newline + rest)
    requires ret == "\r" || (ret == "" && !("\r" <= tail))
    requires newline == "\n" || (newline == "" && !("\n" <= rest))
    ensures Behind(tail, DropLineEnd(rest))
  {
    var blank := rest[..LineEnd(rest)];
    assert rest == blank + DropLineEnd(rest);
    LineEndsOnce(rest);
  }

  lemma LineEndsOnce(rest: string)
    ensures IsLineEnd(rest[..LineEnd(rest)]) || (rest[..LineEnd(rest)] == "" && LineEnd(DropLineEnd(rest)) == 0)
  {
  }

  lemma BehindClose(text: string)
    requires ClosesAt(text)
    ensures Behind(DropLineEnd(text)[3..], AfterClose(text))
  {
    var tail := DropLineEnd(text)[3..];
    var rest := Skip(tail, '\r');
    SkipTakes(tail, '\r');
    SkipTakes(rest, '\n');
    BehindTail(tail, if ['\r'] <= tail then ['\r'] else "", if ['\n'] <= rest then ['\n'] else "", Skip(rest, '\n'));
  }

  /** What stands behind the opening line. */
  function Inside(raw: string): string {
    var start := Skip(raw, '\U{FEFF}');
    if Fence(start) then DropLineEnd(start[3..]) else ""
  }

  /** The text opens with a fence and closes again. */
  predicate Found(raw: string) {
    var start := Skip(raw, '\U{FEFF}');
    Fence(start) && LineEnd(start[3..]) > 0 && Close(Inside(raw)).Some?
  }

  lemma Opened(raw: string) returns (mark: string, opening: string)
    requires Found(raw)
    ensures (mark == "" || mark == "\U{FEFF}") && IsLineEnd(opening) && raw == mark + ("---" + (opening + Inside(raw)))
  {
    var start := Skip(raw, '\U{FEFF}');
    mark := if ['\U{FEFF}'] <= raw then ['\U{FEFF}'] else "";
    SkipTakes(raw, '\U{FEFF}');
    DashesTaken(start);
    LineEndTaken(start[3..]);
    opening := start[3..][..LineEnd(start[3..])];
  }

  lemma Closed(text: string) returns (closing: string)
    requires Close(text).Some?
    ensures var cut := Close(text).value;
      IsLineEnd(closing) && text == cut.front + (closing + ("---" + DropLineEnd(cut.tail)[3..]))
  {
    var cut := Close(text).value;
    CloseCuts(text);
    LineEndTaken(cut.tail);
    DashesTaken(DropLineEnd(cut.tail));
    closing := cut.tail[..LineEnd(cut.tail)];
  }

  lemma SplitFound(raw: string)
    requires Found(raw)
    ensures var cut := Close(Inside(raw)).value; Split(raw) == Parts(cut.front, AfterClose(cut.tail))
  {
  }

  lemma InsideIsFenced(raw: string)
    requires Found(raw)
    ensures var cut := Close(Inside(raw)).value; Fenced(raw, cut.front, DropLineEnd(cut.tail)[3..])
  {
    var mark, opening := Opened(raw);
    var closing := Closed(Inside(raw));
  }

  /** What is split off was fenced. */
  lemma SplitIsFenced(raw: string)
    requires Found(raw)
    ensures exists tail :: Fenced(raw, Split(raw).frontmatter, tail) && Behind(tail, Split(raw).body)
  {
    var cut := Close(Inside(raw)).value;
    InsideIsFenced(raw);
    SplitFound(raw);
    BehindClose(cut.tail);
  }

  lemma FencedCloses(raw: string, front: string, tail: string)
    requires Fenced(raw, front, tail)
    ensures Found(raw) && |Close(Inside(raw)).value.front| <= |front|
  {
    var mark, opening, closing :|
      && (mark == "" || mark == "\U{FEFF}") && IsLineEnd(opening) && IsLineEnd(closing)
      && raw == mark + ("---" + (opening + (front + (closing + ("---" + tail)))));
    var end := closing + ("---" + tail);
    DashesGiven(tail);
    LineEndGiven(closing, "---" + tail);
    DashesGiven(opening + (front + end));
    LineEndGiven(opening, front + end);
    CloseIsFirst(front, end);
    SkipsMark(mark, opening + (front + end));
  }

  lemma SkipsMark(mark: string, text: string)
    requires mark == "" || mark == "\U{FEFF}"
    ensures Skip(mark + ("---" + text), '\U{FEFF}') == "---" + text
  {
    var raw := mark + ("---" + text);
    assert raw[0] == if mark == "" then '-' else '\U{FEFF}';
  }

  /**
    Of any text: if it is fenced in any way the front is the shortest there is and the body what lies behind it; if not,
    all of it is body.
   */
  lemma SplitExactly(raw: string)
    ensures (exists front, tail :: Fenced(raw, front, tail)) ==>
      && (exists tail :: Fenced(raw, Split(raw).frontmatter, tail) && Behind(tail, Split(raw).body))
      && forall front, tail :: Fenced(raw, front, tail) ==> |Split(raw).frontmatter| <= |front|
    ensures (forall front, tail :: !Fenced(raw, front, tail)) ==> Split(raw) == Parts("", raw)
  {
    forall front, tail | Fenced(raw, front, tail) ensures Found(raw) && |Split(raw).frontmatter| <= |front| {
      FencedCloses(raw, front, tail);
    }
    if Found(raw) {
      SplitIsFenced(raw);
    }
  }
}
