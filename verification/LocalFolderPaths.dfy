/** Mounted paths of granted folders: what the backend shows an agent, and how it reads a path back. */
module LocalFolderPaths {
  import opened Wrappers
  import opened Sequences
  import opened VirtualPaths

  /** String.split on the path separator: at least one part. */
  function SplitPath(s: string): (parts: seq<string>)
    ensures parts != []
  {
    if s == "" then [""]
    else if s[0] == '/' then [""] + SplitPath(s[1..])
    else
      var parts := SplitPath(s[1..]);
      [[s[0]] + parts[0]] + parts[1..]
  }

  function JoinPath(parts: seq<string>): string {
    if parts == [] then ""
    else if |parts| == 1 then parts[0]
    else parts[0] + "/" + JoinPath(parts[1..])
  }

  function EncodeAll(parts: seq<string>): (r: seq<string>)
    ensures |r| == |parts|
  {
    seq(|parts|, i requires 0 <= i < |parts| => EncodeSegment(parts[i]))
  }

  function EncodePath(path: string): string {
    JoinPath(EncodeAll(SplitPath(path)))
  }

  function NonEmpty(parts: seq<string>): seq<string> {
    if parts == [] then [] else (if parts[0] == "" then [] else [parts[0]]) + NonEmpty(parts[1..])
  }

  function DecodeAll(parts: seq<string>): (r: Option<seq<string>>)
    ensures r.Some? ==> |r.value| == |parts|
  {
    if parts == [] then Some([])
    else
      match (DecodeSegment(parts[0]), DecodeAll(parts[1..]))
      case (Some(name), Some(rest)) => Some([name] + rest)
      case _ => None
  }

  /** A path inside a folder, from its names. */
  function FolderPath(names: seq<string>): string {
    if names == [] then "/" else "/" + JoinPath(names)
  }

  /** The granted folder a virtual path names and the path inside it; no folder for what is not a mounted path. */
  datatype Target = Target(folder: Option<string>, folderPath: string)

  const NOWHERE: Target := Target(None, "/")

  /** The lookup of an id among the ids of the current grants. */
  function Folder(id: string, grants: set<string>): Option<string> {
    if id in grants then Some(id) else None
  }

  function Split(virtualPath: string, grants: set<string>): Target {
    if virtualPath == "" || virtualPath[0] != '/' || '\\' in virtualPath then NOWHERE
    else
      var segments := NonEmpty(SplitPath(virtualPath));
      if segments == [] || segments[0] == "." || segments[0] == ".." then NOWHERE
      else
        match DecodeAll(segments[1..])
        case Some(names) => Target(Folder(segments[0], grants), FolderPath(names))
        case None => NOWHERE
  }

  function Prefix(id: string, folderPath: string): string {
    "/" + id + EncodePath(folderPath)
  }

  /** The source's split: one segment at a time, giving up at the first that does not decode. */
  method SplitVirtualPath(virtualPath: string, grants: set<string>) returns (target: Target)
    ensures target == Split(virtualPath, grants)
  {
    if virtualPath == "" || virtualPath[0] != '/' || '\\' in virtualPath {
      return NOWHERE;
    }
    var segments := NonEmpty(SplitPath(virtualPath));
    if segments == [] || segments[0] == "." || segments[0] == ".." {
      return NOWHERE;
    }
    var decodedSegments: seq<string> := [];
    assert forall rest: seq<string> :: decodedSegments + rest == rest;
    for i := 1 to |segments|
      invariant DecodeAll(segments[1..]) ==
        match DecodeAll(segments[i..]) { case Some(rest) => Some(decodedSegments + rest) case None => None }
    {
      var decoded := DecodeSegment(segments[i]);
      assert segments[i..][1..] == segments[i + 1..];
      if decoded.None? {
        return NOWHERE;
      }
      assert forall rest: seq<string> ::
        decodedSegments + ([decoded.value] + rest) == decodedSegments + [decoded.value] + rest;
      decodedSegments := decodedSegments + [decoded.value];
    }
    assert decodedSegments + [] == decodedSegments;
    return Target(Folder(segments[0], grants), FolderPath(decodedSegments));
  }

  // ---------------------------------------------------------------- splitting and joining

  lemma {:induction false} SplitPart(part: string, rest: string)
    requires '/' !in part
    ensures SplitPath(part) == [part] && SplitPath(part + "/" + rest) == [part] + SplitPath(rest)
  {
    if part == "" {
      assert "" + "/" + rest == "/" + rest && ("/" + rest)[1..] == rest;
    } else {
      SplitPart(part[1..], rest);
      assert (part + "/" + rest)[1..] == part[1..] + "/" + rest;
      assert part == [part[0]] + part[1..];
    }
  }

  lemma {:induction false} SplitJoin(parts: seq<string>)
    requires parts != [] && forall p :: p in parts ==> '/' !in p
    ensures SplitPath(JoinPath(parts)) == parts
  {
    assert parts[0] in parts;
    if |parts| == 1 {
      SplitPart(parts[0], "");
    } else {
      SplitJoin(parts[1..]);
      SplitPart(parts[0], JoinPath(parts[1..]));
      assert parts == [parts[0]] + parts[1..];
    }
  }

  lemma ByteText(b: Byte)
    ensures EncodeByte(b) != "" && '/' !in EncodeByte(b) && '\\' !in EncodeByte(b)
  {
  }

  lemma {:induction false} BytesText(bs: seq<Byte>)
    ensures '/' !in EncodeBytes(bs) && '\\' !in EncodeBytes(bs)
    ensures bs != [] ==> EncodeBytes(bs) != ""
  {
    if bs != [] {
      ByteText(bs[0]);
      BytesText(bs[1..]);
      EncodeBytesConcat([bs[0]], bs[1..]);
      EncodeOneByte(bs[0]);
      assert [bs[0]] + bs[1..] == bs;
    }
  }

  /** An encoded name is a path segment: not empty unless the name is, and free of separators. */
  lemma EncodedText(name: string)
    ensures '/' !in EncodeSegment(name) && '\\' !in EncodeSegment(name)
    ensures EncodeSegment(name) == "" <==> name == ""
  {
    BytesText(Utf8.Encode(name));
  }

  lemma {:induction false} NonEmptyKeeps(parts: seq<string>)
    requires forall i :: 0 <= i < |parts| ==> parts[i] != ""
    ensures NonEmpty(parts) == parts
  {
    if parts != [] {
      NonEmptyKeeps(parts[1..]);
      assert parts == [parts[0]] + parts[1..];
    }
  }

  lemma {:induction false} NonEmptyConcat(a: seq<string>, b: seq<string>)
    ensures NonEmpty(a + b) == NonEmpty(a) + NonEmpty(b)
  {
    if a == [] {
      EmptyIsUnit(b);
    } else {
      NonEmptyConcat(a[1..], b);
      TailOfConcat(a, b);
      Assoc(if a[0] == "" then [] else [a[0]], NonEmpty(a[1..]), NonEmpty(b));
    }
  }

  lemma {:induction false} JoinWithout(parts: seq<string>, c: char)
    requires c != '/' && forall p :: p in parts ==> c !in p
    ensures c !in JoinPath(parts)
  {
    if parts != [] {
      assert parts[0] in parts;
      JoinWithout(parts[1..], c);
    }
  }

  /** Names of a path: not empty, no separator. */
  predicate AreNames(names: seq<string>) {
    forall n :: n in names ==> n != "" && '/' !in n
  }

  predicate IsId(id: string) {
    id != "" && id != "." && id != ".." && '/' !in id && '\\' !in id
  }

  lemma JoinMore(part: string, rest: seq<string>)
    requires rest != []
    ensures JoinPath([part] + rest) == part + "/" + JoinPath(rest)
  {
    assert ([part] + rest)[1..] == rest;
  }

  lemma EncodeAllMore(part: string, rest: seq<string>)
    ensures EncodeAll([part] + rest) == [EncodeSegment(part)] + EncodeAll(rest)
  {
    var parts := [part] + rest;
    assert forall i :: 0 <= i < |rest| ==> parts[i + 1] == rest[i];
  }

  lemma EncodeFolderPath(names: seq<string>)
    requires AreNames(names)
    ensures EncodePath(FolderPath(names)) == "/" + JoinPath(if names == [] then [""] else EncodeAll(names))
  {
    var tail := if names == [] then [""] else names;
    forall p | p in tail ensures '/' !in p {
    }
    SplitJoin(tail);
    SplitPart("", JoinPath(tail));
    EmptyIsUnit("/");
    EncodedText("");
    EncodeAllMore("", tail);
    EncodeAllMore("", []);
    EmptyIsUnit([""]);
    JoinMore("", EncodeAll(tail));
  }

  /** The mounted form of a path, part by part. */
  lemma PrefixParts(id: string, names: seq<string>)
    requires IsId(id) && AreNames(names)
    ensures Prefix(id, FolderPath(names)) == JoinPath(["", id] + if names == [] then [""] else EncodeAll(names))
  {
    EncodeFolderPath(names);
    var tail := if names == [] then [""] else EncodeAll(names);
    PrefixJoins(id, tail);
  }

  lemma PrefixJoins(id: string, tail: seq<string>)
    requires tail != []
    ensures JoinPath(["", id] + tail) == "/" + id + ("/" + JoinPath(tail))
  {
    JoinMore(id, tail);
    JoinMore("", [id] + tail);
    assert [""] + [id] == ["", id];
    Assoc([""], [id], tail);
    EmptyIsUnit("/");
    Assoc(id, "/", JoinPath(tail));
    Assoc("/", id, "/" + JoinPath(tail));
  }

  /** Reading a mounted path back finds the folder's id and the encoded names. */
  lemma SplitPrefix(id: string, names: seq<string>, grants: set<string>)
    requires IsId(id) && AreNames(names)
    ensures Split(Prefix(id, FolderPath(names)), grants) ==
      match DecodeAll(EncodeAll(names))
        case Some(back) => Target(Folder(id, grants), FolderPath(back))
        case None => NOWHERE
  {
    var enc := EncodeAll(names);
    var tail := if names == [] then [""] else enc;
    var parts := ["", id] + tail;
    EncodedNames(names);
    PrefixParts(id, names);
    SplitJoin(parts);
    JoinWithout(parts, '\\');
    assert forall i :: 0 <= i < |enc| ==> enc[i] in enc;
    SegmentsOf(id, tail, enc);
    assert ([id] + enc)[1..] == enc;
  }

  lemma EncodedNames(names: seq<string>)
    requires AreNames(names)
    ensures forall p :: p in EncodeAll(names) ==> p != "" && '/' !in p && '\\' !in p
  {
    var enc := EncodeAll(names);
    forall p | p in enc ensures p != "" && '/' !in p && '\\' !in p {
      var i :| 0 <= i < |enc| && enc[i] == p;
      assert names[i] in names;
      EncodedText(names[i]);
    }
  }

  lemma SegmentsOf(id: string, tail: seq<string>, enc: seq<string>)
    requires id != "" && (forall i :: 0 <= i < |enc| ==> enc[i] != "") && (tail == enc || (enc == [] && tail == [""]))
    ensures NonEmpty(["", id] + tail) == [id] + enc
  {
    NonEmptyKeeps(enc);
    NonEmptyConcat(["", id], tail);
    NonEmptyConcat([""], [id]);
    assert [""] + [id] == ["", id];
  }

  /** Decoding the encoded names gives what survives of each, if all are then allowed. */
  lemma {:induction false} DecodeAllEncoded(names: seq<string>)
    ensures match DecodeAll(EncodeAll(names))
            case Some(back) =>
              && |back| == |names|
              && (forall i :: 0 <= i < |names| ==> back[i] == Survives(names[i]) && Allowed(back[i]))
            case None => exists i :: 0 <= i < |names| && !Allowed(Survives(names[i]))
  {
    if names != [] {
      DecodeAllEncoded(names[1..]);
      UnescapeEncoded(names[0]);
      assert EncodeAll(names)[1..] == EncodeAll(names[1..]);
      if DecodeAll(EncodeAll(names[1..])).None? {
        var i :| 0 <= i < |names[1..]| && !Allowed(Survives(names[1..][i]));
        assert !Allowed(Survives(names[i + 1]));
      }
    }
  }

  /** Names that only got shorter join to the same path only if none did. */
  lemma {:induction false} JoinInjective(a: seq<string>, b: seq<string>)
    requires |a| == |b| && forall i :: 0 <= i < |a| ==> |a[i]| <= |b[i]| && (a[i] != b[i] ==> |a[i]| < |b[i]|)
    ensures |JoinPath(a)| <= |JoinPath(b)|
    ensures |JoinPath(a)| == |JoinPath(b)| ==> a == b
  {
    if |a| == 1 {
      assert a == [a[0]] && b == [b[0]];
    } else if |a| > 1 {
      JoinInjective(a[1..], b[1..]);
      assert a == [a[0]] + a[1..] && b == [b[0]] + b[1..];
    }
  }

  /**
    A mounted path reads back as its folder and path exactly when the folder is still granted and every name is allowed
    and keeps its byte order marks.
   */
  lemma MountedPathRoundTrip(id: string, names: seq<string>, grants: set<string>)
    requires IsId(id) && AreNames(names)
    ensures Split(Prefix(id, FolderPath(names)), grants) == Target(Some(id), FolderPath(names)) <==>
      id in grants && forall n :: n in names ==> Allowed(n) && BomsCovered(n)
  {
    SplitPrefix(id, names, grants);
    DecodeAllEncoded(names);
    forall n
      ensures Survives(n) == n <==> BomsCovered(n)
      ensures |Survives(n)| <= |n| && (Survives(n) != n ==> |Survives(n)| < |n|)
    {
      SurvivesExactly(n);
      SurvivesLength(n);
    }
    match DecodeAll(EncodeAll(names))
    case Some(back) =>
      JoinInjective(back, names);
      if FolderPath(back) == FolderPath(names) {
        assert forall i :: 0 <= i < |names| ==> names[i] == back[i];
      } else {
        assert back != names;
      }
    case None =>
      var i :| 0 <= i < |names| && !Allowed(Survives(names[i]));
      assert names[i] in names;
  }
}
