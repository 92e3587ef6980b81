/** How texts and paths are read that nobody encoded: the escapes of any text, and what any virtual path can reach. */
module PathReading {
  import opened Wrappers
  import opened Sequences
  import opened VirtualPaths
  import opened LocalFolderPaths
  import Utf8

  // ---------------------------------------------------------------- escapes

  const UPPER_HEX: string := "0123456789ABCDEF"

  const LOWER_HEX: string := "0123456789abcdef"

  /** Hexadecimal digits count in either case. */
  lemma HexExactly(c: char, n: int)
    ensures HexValue(c) == Some(n) <==> 0 <= n < 16 && (c == UPPER_HEX[n] || c == LOWER_HEX[n])
  {
  }

  /** The text is one escape after another, of these bytes. */
  ghost predicate EscapesOf(text: string, bs: seq<Byte>)
    decreases |bs|
  {
    if bs == [] then text == ""
    else
      && |text| >= 3 && text[0] == '%'
      && HexValue(text[1]) == Some(bs[0] / 16) && HexValue(text[2]) == Some(bs[0] % 16)
      && EscapesOf(text[3..], bs[1..])
  }

  function Both(a: Option<string>, b: Option<string>): Option<string> {
    if a.Some? && b.Some? then Some(a.value + b.value) else None
  }

  function WithoutBom(run: Option<string>): Option<string> {
    if run.Some? then Some(DropBom(run.value)) else None
  }

  lemma {:induction false} ReadsAnyRun(run: string, bs: seq<Byte>, rest: string)
    requires EscapesOf(run, bs) && !StartsEscape(rest)
    ensures |run| == 3 * |bs| && EscapeRun(run + rest) == bs
    decreases |bs|
  {
    if bs == [] {
      assert run + rest == rest;
    } else {
      ReadsAnyRun(run[3..], bs[1..], rest);
      assert (run + rest)[3..] == run[3..] + rest;
      HeadAndTail(bs);
    }
  }

  /** Dropping a byte order mark before decoding or after is the same. */
  lemma BomBeforeOrAfter(bs: seq<Byte>)
    ensures Utf8.Decode(StripBom(bs)) == WithoutBom(Utf8.Decode(bs))
  {
    if Utf8.Decode(bs).Some? {
      var run := Utf8.Decode(bs).value;
      Utf8.EncodeDecode(bs);
      StripBomRun(run);
      Utf8.DecodeEncode(DropBom(run));
    } else if StripBom(bs) != bs {
      BomDecodes(bs);
    }
  }

  /**
    A maximal run of escapes, in upper or lower case, is replaced by the text its bytes encode, less a byte order mark;
    if they encode none the whole name is refused.
   */
  lemma UnescapesRun(run: string, bs: seq<Byte>, rest: string)
    requires bs != [] && EscapesOf(run, bs) && !StartsEscape(rest)
    ensures Unescape(run + rest) == Both(WithoutBom(Utf8.Decode(bs)), Unescape(rest))
  {
    ReadsAnyRun(run, bs, rest);
    BomBeforeOrAfter(bs);
    assert StartsEscape(run + rest);
    assert (run + rest)[3 * |bs|..] == rest;
  }

  /** Everything else stays as it is, a percent sign that starts no escape included. */
  lemma {:induction false} UnescapesLiteral(text: string, rest: string)
    requires forall i :: 0 <= i < |text| ==> !StartsEscape((text + rest)[i..])
    ensures Unescape(text + rest) == Both(Some(text), Unescape(rest))
  {
    if text == "" {
      EmptyIsUnit(rest);
      assert Unescape(rest).Some? ==> "" + Unescape(rest).value == Unescape(rest).value;
    } else {
      TailOfConcat(text, rest);
      forall i | 0 <= i < |text[1..]| ensures !StartsEscape((text[1..] + rest)[i..]) {
        assert (text[1..] + rest)[i..] == (text + rest)[i + 1..];
      }
      UnescapesLiteral(text[1..], rest);
      assert (text + rest)[0..] == text + rest && (text + rest)[0] == text[0];
      if Unescape(rest).Some? {
        HeadAndTail(text);
        Assoc([text[0]], text[1..], Unescape(rest).value);
      }
    }
  }

  // ---------------------------------------------------------------- paths

  lemma {:induction false} JoinSplit(path: string)
    ensures JoinPath(SplitPath(path)) == path
    ensures forall part :: part in SplitPath(path) ==> '/' !in part
  {
    if path != "" {
      JoinSplit(path[1..]);
      var parts := SplitPath(path[1..]);
      if path[0] == '/' {
        assert ([""] + parts)[1..] == parts;
      } else {
        assert ([[path[0]] + parts[0]] + parts[1..])[1..] == parts[1..];
        assert parts[0] in parts && forall part :: part in parts[1..] ==> part in parts;
      }
    }
  }

  /** The path, taken apart at its separators, is a folder's id and these parts, whatever empty parts lie between. */
  ghost predicate Names(path: string, id: string, parts: seq<string>) {
    exists all :: all != [] && JoinPath(all) == path && (forall part :: part in all ==> '/' !in part)
      && NonEmpty(all) == [id] + parts
  }

  lemma NamesExactly(path: string, id: string, parts: seq<string>)
    ensures Names(path, id, parts) <==> NonEmpty(SplitPath(path)) == [id] + parts
  {
    JoinSplit(path);
    if Names(path, id, parts) {
      var all :| all != [] && JoinPath(all) == path && (forall part :: part in all ==> '/' !in part)
        && NonEmpty(all) == [id] + parts;
      SplitJoin(all);
    }
  }

  ghost predicate Decoded(parts: seq<string>, names: seq<string>) {
    |names| == |parts| && forall i :: 0 <= i < |parts| ==> DecodeSegment(parts[i]) == Some(names[i])
  }

  lemma {:induction false} DecodeAllExactly(parts: seq<string>, names: seq<string>)
    ensures DecodeAll(parts) == Some(names) <==> Decoded(parts, names)
  {
    if parts != [] {
      if names != [] {
        DecodeAllExactly(parts[1..], names[1..]);
        HeadAndTail(names);
        assert Decoded(parts, names) <==>
          DecodeSegment(parts[0]) == Some(names[0]) && Decoded(parts[1..], names[1..]) by {
          DecodedStep(parts, names);
        }
      }
    }
  }

  lemma DecodedStep(parts: seq<string>, names: seq<string>)
    requires parts != [] && names != []
    ensures Decoded(parts, names) <==>
      DecodeSegment(parts[0]) == Some(names[0]) && Decoded(parts[1..], names[1..])
  {
    if DecodeSegment(parts[0]) == Some(names[0]) && Decoded(parts[1..], names[1..]) {
      forall i | 0 <= i < |parts| ensures DecodeSegment(parts[i]) == Some(names[i]) {
        if i > 0 {
          assert parts[1..][i - 1] == parts[i] && names[1..][i - 1] == names[i];
        }
      }
    }
  }

  /** A path leads into a folder exactly if absolute, without a backslash, of a granted id, and all of it decodes. */
  lemma SplitExactly(path: string, grants: set<string>, id: string, folderPath: string)
    ensures Split(path, grants) == Target(Some(id), folderPath) <==>
      && "/" <= path && '\\' !in path && id in grants && id != "." && id != ".."
      && exists parts, names :: Names(path, id, parts) && Decoded(parts, names) && folderPath == FolderPath(names)
  {
    var segments := NonEmpty(SplitPath(path));
    if Split(path, grants) == Target(Some(id), folderPath) {
      var parts := segments[1..];
      HeadAndTail(segments);
      NamesExactly(path, id, parts);
      DecodeAllExactly(parts, DecodeAll(parts).value);
    }
    if parts, names :| Names(path, id, parts) && Decoded(parts, names) && folderPath == FolderPath(names) {
      NamesExactly(path, id, parts);
      DecodeAllExactly(parts, names);
      assert ([id] + parts)[1..] == parts;
    }
  }

  /** Whatever the path, it leads into no folder but a granted one, and below its root: no name climbs or separates. */
  lemma StaysInside(path: string, grants: set<string>)
    requires Split(path, grants).folder.Some?
    ensures Split(path, grants).folder.value in grants
    ensures exists names :: Split(path, grants).folderPath == FolderPath(names) && forall n :: n in names ==> Allowed(n)
  {
    var target := Split(path, grants);
    SplitExactly(path, grants, target.folder.value, target.folderPath);
    var parts, names :| Names(path, target.folder.value, parts) && Decoded(parts, names)
      && target.folderPath == FolderPath(names);
    forall n | n in names ensures Allowed(n) {
      var i :| 0 <= i < |names| && names[i] == n;
      assert DecodeSegment(parts[i]) == Some(names[i]);
    }
  }
}
