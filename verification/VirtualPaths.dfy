/**
  Virtual path segments: percent-encoding (section 2.1 of RFC 3986) over UTF-8 bytes, decoded by
  maximal runs of escapes. Strings are sequences of Unicode scalar values; the separator is POSIX's.
 */
module VirtualPaths {
  import opened Wrappers
  import opened Sequences
  import Utf8

  type Byte = Utf8.Byte

  const BOM: char := '\U{FEFF}'

  /** Bytes written as themselves. */
  predicate PlainByte(b: Byte) {
    0x20 <= b <= 0x7E && b != 0x25 && b != 0x2F && b != 0x5C
  }

  function HexDigit(n: int): (c: char)
    requires 0 <= n < 16
  {
    if n < 10 then (0x30 + n) as char else (0x41 + n - 10) as char
  }

  function HexValue(c: char): (n: Option<int>)
    ensures n.Some? ==> 0 <= n.value < 16
  {
    if '0' <= c <= '9' then Some(c as int - 0x30)
    else if 'A' <= c <= 'F' then Some(c as int - 0x41 + 10)
    else if 'a' <= c <= 'f' then Some(c as int - 0x61 + 10)
    else None
  }

  function EncodeByte(b: Byte): string {
    if PlainByte(b) then [b as char] else ['%', HexDigit(b / 16), HexDigit(b % 16)]
  }

  function Flatten(parts: seq<string>): string {
    if parts == [] then "" else parts[0] + Flatten(parts[1..])
  }

  function Escapes(bs: seq<Byte>): (parts: seq<string>)
    ensures |parts| == |bs|
  {
    seq(|bs|, i requires 0 <= i < |bs| => EncodeByte(bs[i]))
  }

  function EncodeBytes(bs: seq<Byte>): string {
    Flatten(Escapes(bs))
  }

  function EncodeSegment(segment: string): string {
    EncodeBytes(Utf8.Encode(segment))
  }

  /** Whether the text starts with an escape, %HH. */
  predicate StartsEscape(text: string) {
    |text| >= 3 && text[0] == '%' && HexValue(text[1]).Some? && HexValue(text[2]).Some?
  }

  /** The bytes of the maximal run of escapes the text starts with; three characters each. */
  function EscapeRun(text: string): (bs: seq<Byte>)
    ensures 3 * |bs| <= |text| && (StartsEscape(text) ==> bs != [])
  {
    if StartsEscape(text) then [HexValue(text[1]).value * 16 + HexValue(text[2]).value] + EscapeRun(text[3..]) else []
  }

  function StripBom(bs: seq<Byte>): seq<Byte> {
    if |bs| >= 3 && bs[0] == 0xEF && bs[1] == 0xBB && bs[2] == 0xBF then bs[3..] else bs
  }

  /** Every run of escapes replaced by what it decodes to; none if one is not UTF-8. */
  function Unescape(text: string): Option<string>
    decreases |text|
  {
    if text == "" then Some("")
    else if StartsEscape(text) then
      var bs := EscapeRun(text);
      match (Utf8.Decode(StripBom(bs)), Unescape(text[3 * |bs|..]))
      case (Some(run), Some(rest)) => Some(run + rest)
      case _ => None
    else
      match Unescape(text[1..])
      case Some(rest) => Some([text[0]] + rest)
      case None => None
  }

  /** A name a path segment may have. */
  predicate Allowed(name: string) {
    name != "." && name != ".." && '/' !in name && '\0' !in name
  }

  function DecodeSegment(segment: string): Option<string> {
    match Unescape(segment)
    case Some(name) => if Allowed(name) then Some(name) else None
    case None => None
  }

  // ---------------------------------------------------------------- what survives the round trip

  /** Characters written as themselves. */
  predicate Plain(c: char) {
    (c as int) < 0x80 && PlainByte(c as int)
  }

  /** The length of the maximal run of escaped characters the name starts with. */
  function EscapedPrefix(name: string): (n: nat)
    ensures n <= |name| && (name != "" && !Plain(name[0]) ==> n > 0)
    ensures forall i :: 0 <= i < n ==> !Plain(name[i])
    ensures n < |name| ==> Plain(name[n])
  {
    if name == "" || Plain(name[0]) then 0 else 1 + EscapedPrefix(name[1..])
  }

  function DropBom(run: string): string {
    if run != "" && run[0] == BOM then run[1..] else run
  }

  /** The name with one byte order mark dropped from the front of each maximal run of escaped characters. */
  function Survives(name: string): string
    decreases |name|
  {
    if name == "" then ""
    else if Plain(name[0]) then [name[0]] + Survives(name[1..])
    else
      var n := EscapedPrefix(name);
      DropBom(name[..n]) + Survives(name[n..])
  }

  /** Every byte order mark directly follows another escaped character. */
  predicate BomsCovered(name: string) {
    forall i :: 0 <= i < |name| && name[i] == BOM ==> i > 0 && !Plain(name[i - 1])
  }

  lemma {:induction false} FlattenConcat(a: seq<string>, b: seq<string>)
    ensures Flatten(a + b) == Flatten(a) + Flatten(b)
  {
    if a == [] {
      EmptyIsUnit(b);
      EmptyIsUnit(Flatten(b));
    } else {
      FlattenConcat(a[1..], b);
      TailOfConcat(a, b);
      Assoc(a[0], Flatten(a[1..]), Flatten(b));
    }
  }

  lemma EncodeBytesConcat(a: seq<Byte>, b: seq<Byte>)
    ensures EncodeBytes(a + b) == EncodeBytes(a) + EncodeBytes(b)
  {
    FlattenConcat(Escapes(a), Escapes(b));
    assert Escapes(a + b) == Escapes(a) + Escapes(b);
  }

  lemma EncodeOneByte(b: Byte)
    ensures EncodeBytes([b]) == EncodeByte(b)
  {
    assert Escapes([b]) == [EncodeByte(b)];
    assert Flatten([EncodeByte(b)]) == EncodeByte(b) + Flatten([]);
  }

  lemma EncodeConcat(a: string, b: string)
    ensures EncodeSegment(a + b) == EncodeSegment(a) + EncodeSegment(b)
  {
    Utf8.EncodeConcat(a, b);
    EncodeBytesConcat(Utf8.Encode(a), Utf8.Encode(b));
  }

  lemma EncodePlain(c: char)
    requires Plain(c)
    ensures EncodeSegment([c]) == [c]
  {
    assert Utf8.Encode([c]) == [c as int];
    EncodeOneByte(c as int);
  }

  /** No byte of an escaped character is plain. */
  lemma EscapedBytes(c: char)
    requires !Plain(c)
    ensures forall b :: b in Utf8.EncodeChar(c) ==> !PlainByte(b)
  {
  }

  lemma {:induction false} EscapedRunBytes(run: string)
    requires forall i :: 0 <= i < |run| ==> !Plain(run[i])
    ensures forall b :: b in Utf8.Encode(run) ==> !PlainByte(b)
  {
    if run != "" {
      EscapedBytes(run[0]);
      EscapedRunBytes(run[1..]);
    }
  }

  lemma ReadsEscape(b: Byte, rest: string)
    requires !PlainByte(b)
    ensures |EncodeByte(b)| == 3 && EscapeRun(EncodeByte(b) + rest) == [b] + EscapeRun(rest)
  {
    var text := EncodeByte(b) + rest;
    assert text[1] == HexDigit(b / 16) && text[2] == HexDigit(b % 16);
    assert StartsEscape(text) && HexValue(text[1]).value * 16 + HexValue(text[2]).value == b;
    assert text[3..] == rest;
  }

  /** A run of escapes is read back as its bytes, up to a rest that starts no escape. */
  lemma {:induction false} ReadsRun(bs: seq<Byte>, rest: string)
    requires (forall b :: b in bs ==> !PlainByte(b)) && !StartsEscape(rest)
    ensures |EncodeBytes(bs)| == 3 * |bs| && EscapeRun(EncodeBytes(bs) + rest) == bs
  {
    if bs == [] {
      assert EncodeBytes(bs) + rest == rest;
    } else {
      var b, tail := bs[0], EncodeBytes(bs[1..]);
      assert b in bs && bs == [b] + bs[1..];
      ReadsRun(bs[1..], rest);
      ReadsEscape(b, tail + rest);
      EncodeBytesConcat([b], bs[1..]);
      EncodeOneByte(b);
      assert EncodeByte(b) + tail + rest == EncodeByte(b) + (tail + rest);
    }
  }

  lemma BomDecodes(bs: seq<Byte>)
    ensures StripBom(bs) != bs ==> bs != [] && Utf8.DecodeChar(bs) == Some((BOM, 3))
  {
  }

  lemma BomBytes(c: char, rest: seq<Byte>)
    ensures StripBom(Utf8.EncodeChar(c) + rest) == if c == BOM then rest else Utf8.EncodeChar(c) + rest
  {
    var bs := Utf8.EncodeChar(c) + rest;
    Utf8.DecodeEncodedChar(c, rest);
    if c == BOM {
      assert Utf8.EncodeChar(c) == [0xEF, 0xBB, 0xBF];
    } else {
      BomDecodes(bs);
    }
  }

  lemma StripBomRun(run: string)
    ensures StripBom(Utf8.Encode(run)) == Utf8.Encode(DropBom(run))
  {
    if run != "" {
      BomBytes(run[0], Utf8.Encode(run[1..]));
    }
  }

  /** Unescaping an encoded name gives what survives of it. */
  lemma {:induction false} UnescapeEncoded(name: string)
    ensures Unescape(EncodeSegment(name)) == Some(Survives(name))
    decreases |name|
  {
    if name == "" {
    } else if Plain(name[0]) {
      UnescapeEncoded(name[1..]);
      UnescapePlain(name);
    } else {
      UnescapeEncoded(name[EscapedPrefix(name)..]);
      UnescapeEscaped(name);
    }
  }

  lemma UnescapeEscaped(name: string)
    requires name != "" && !Plain(name[0])
    requires var rest := name[EscapedPrefix(name)..]; Unescape(EncodeSegment(rest)) == Some(Survives(rest))
    ensures Unescape(EncodeSegment(name)) == Some(Survives(name))
  {
    var n := EscapedPrefix(name);
    UnescapeRun(name[..n], name[n..]);
    SplitAt(name, n);
    SurvivesEscaped(name);
  }

  lemma SurvivesEscaped(name: string)
    requires name != "" && !Plain(name[0])
    ensures Survives(name) == DropBom(name[..EscapedPrefix(name)]) + Survives(name[EscapedPrefix(name)..])
  {
  }

  lemma UnescapePlain(name: string)
    requires name != "" && Plain(name[0]) && Unescape(EncodeSegment(name[1..])) == Some(Survives(name[1..]))
    ensures Unescape(EncodeSegment(name)) == Some(Survives(name))
  {
    EncodeConcat([name[0]], name[1..]);
    EncodePlain(name[0]);
    assert [name[0]] + name[1..] == name;
    var text := EncodeSegment(name);
    assert text[0] == name[0] && text[1..] == EncodeSegment(name[1..]);
  }

  /** What an encoded name that does not start with an escaped character starts with. */
  lemma PlainStart(rest: string)
    requires rest != "" ==> Plain(rest[0])
    ensures !StartsEscape(EncodeSegment(rest))
  {
    if rest != "" {
      EncodeConcat([rest[0]], rest[1..]);
      EncodePlain(rest[0]);
      assert [rest[0]] + rest[1..] == rest;
    }
  }

  lemma UnescapeRun(run: string, rest: string)
    requires run != "" && (forall i :: 0 <= i < |run| ==> !Plain(run[i])) && (rest != "" ==> Plain(rest[0]))
    requires Unescape(EncodeSegment(rest)) == Some(Survives(rest))
    ensures Unescape(EncodeSegment(run + rest)) == Some(DropBom(run) + Survives(rest))
  {
    var bs := Utf8.Encode(run);
    var text := EncodeSegment(run + rest);
    EncodeConcat(run, rest);
    EscapedRunBytes(run);
    PlainStart(rest);
    ReadsRun(bs, EncodeSegment(rest));
    assert bs != [];
    assert text[3 * |bs|..] == EncodeSegment(rest);
    StripBomRun(run);
    Utf8.DecodeEncode(DropBom(run));
  }

  // ---------------------------------------------------------------- the round trip

  lemma {:induction false} SurvivesLength(name: string)
    ensures |Survives(name)| <= |name|
    ensures Survives(name) != name ==> |Survives(name)| < |name|
    decreases |name|
  {
    if name == "" {
    } else if Plain(name[0]) {
      SurvivesLength(name[1..]);
      assert name == [name[0]] + name[1..];
    } else {
      var n := EscapedPrefix(name);
      SurvivesLength(name[n..]);
      assert name == name[..n] + name[n..];
    }
  }

  lemma {:induction false} SurvivesExactly(name: string)
    ensures Survives(name) == name <==> BomsCovered(name)
    decreases |name|
  {
    if name == "" {
    } else if Plain(name[0]) {
      SurvivesExactly(name[1..]);
      CoveredPlain(name);
      assert name == [name[0]] + name[1..];
    } else {
      var n := EscapedPrefix(name);
      SurvivesExactly(name[n..]);
      SurvivesLength(name[n..]);
      CoveredRun(name, n);
      assert name == name[..n] + name[n..];
      if name[0] == BOM {
        assert |Survives(name)| < |name|;
      }
    }
  }

  lemma CoveredPlain(name: string)
    requires name != "" && Plain(name[0])
    ensures BomsCovered(name) <==> BomsCovered(name[1..])
  {
    assert !Plain(BOM);
    if BomsCovered(name) {
      forall i | 0 <= i < |name[1..]| && name[1..][i] == BOM ensures i > 0 && !Plain(name[1..][i - 1]) {
        assert name[i + 1] == BOM;
      }
    }
    if BomsCovered(name[1..]) {
      forall i | 0 <= i < |name| && name[i] == BOM ensures i > 0 && !Plain(name[i - 1]) {
        assert name[1..][i - 1] == BOM;
      }
    }
  }

  lemma CoveredRun(name: string, n: nat)
    requires 0 < n <= |name| && (forall i :: 0 <= i < n ==> !Plain(name[i])) && (n < |name| ==> Plain(name[n]))
    ensures BomsCovered(name) <==> name[0] != BOM && BomsCovered(name[n..])
  {
    assert !Plain(BOM);
    if BomsCovered(name) {
      forall i | 0 <= i < |name[n..]| && name[n..][i] == BOM ensures i > 0 && !Plain(name[n..][i - 1]) {
        assert name[i + n] == BOM;
      }
    }
    if name[0] != BOM && BomsCovered(name[n..]) {
      forall i | 0 <= i < |name| && name[i] == BOM ensures i > 0 && !Plain(name[i - 1]) {
        if i >= n {
          assert name[n..][i - n] == BOM;
        }
      }
    }
  }

  /**
    Decoding an encoded name gives it back exactly when it is allowed and no byte order mark starts a run of escaped
    characters.
   */
  lemma RoundTripExactly(name: string)
    ensures DecodeSegment(EncodeSegment(name)) == Some(name) <==> Allowed(name) && BomsCovered(name)
  {
    UnescapeEncoded(name);
    SurvivesExactly(name);
  }

  /** In particular every allowed name without a byte order mark. */
  lemma RoundTrip(name: string)
    requires Allowed(name) && BOM !in name
    ensures DecodeSegment(EncodeSegment(name)) == Some(name)
  {
    RoundTripExactly(name);
  }

  /** A byte order mark is lost in the middle of a name too, where it follows a plain character. */
  lemma BomIsLost(a: char, b: char)
    requires Plain(a) && Plain(b) && a != '.'
    ensures DecodeSegment(EncodeSegment([a, BOM, b])) == Some([a, b])
  {
    var name := [a, BOM, b];
    UnescapeEncoded(name);
    assert name[1..] == [BOM, b] && [BOM, b][1..] == [b] && [b][1..] == "";
    assert EscapedPrefix([b]) == 0 && EscapedPrefix([BOM, b]) == 1;
    assert [BOM, b][..1] == [BOM] && DropBom([BOM]) == "";
    assert Survives([b]) == [b];
    assert Survives([BOM, b]) == [b];
    assert Survives(name) == [a] + [b] == [a, b];
    assert !Plain('/') && !Plain('\0');
    assert [a, b][0] == a && Allowed([a, b]);
  }

  // ---------------------------------------------------------------- what an encoded name looks like

  /** A printable ASCII character that is no percent sign, slash or backslash. */
  predicate Readable(c: char) {
    ' ' <= c <= '~' && c != '%' && c != '/' && c != '\\'
  }

  lemma {:induction false} EscapesGrow(bs: seq<Byte>)
    ensures |EncodeBytes(bs)| >= |bs|
    ensures bs != [] && !PlainByte(bs[0]) ==> |EncodeBytes(bs)| > |bs|
  {
    if bs != [] {
      EscapesGrow(bs[1..]);
      EncodeBytesConcat([bs[0]], bs[1..]);
      EncodeOneByte(bs[0]);
      HeadAndTail(bs);
    }
  }

  lemma EncodedLength(c: char)
    ensures Readable(c) <==> Plain(c)
    ensures if Plain(c) then EncodeSegment([c]) == [c] else |EncodeSegment([c])| > 1
  {
    if Plain(c) {
      EncodePlain(c);
    } else {
      EmptyIsUnit(Utf8.EncodeChar(c));
      assert Utf8.Encode([c]) == Utf8.EncodeChar(c);
      EscapedBytes(c);
      assert Utf8.EncodeChar(c)[0] in Utf8.EncodeChar(c);
      EscapesGrow(Utf8.EncodeChar(c));
    }
  }

  /** A name is written as itself exactly if every character of it is readable; else it gets longer. */
  lemma {:induction false} ReadableExactly(name: string)
    ensures |EncodeSegment(name)| >= |name|
    ensures if forall c :: c in name ==> Readable(c) then EncodeSegment(name) == name
            else |EncodeSegment(name)| > |name|
  {
    if name != "" {
      ReadableExactly(name[1..]);
      EncodedLength(name[0]);
      EncodeConcat([name[0]], name[1..]);
      HeadAndTail(name);
      assert forall c :: c in name <==> c == name[0] || c in name[1..];
    }
  }
}
