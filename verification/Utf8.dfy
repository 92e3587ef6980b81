/** UTF-8 as section 3 of RFC 3629 defines it, encoding and strict decoding. */
module Utf8 {
  import opened Wrappers
  import opened Sequences

  type Byte = b: int | 0 <= b < 256

  /** Six bits at a time, high to low. */
  function Bits2(a: int, b: int): int { a * 0x40 + b }

  function Bits3(a: int, b: int, c: int): int { Bits2(a, b) * 0x40 + c }

  function Bits4(a: int, b: int, c: int, d: int): int { Bits3(a, b, c) * 0x40 + d }

  /** The bytes of one Unicode scalar value. */
  function EncodeChar(c: char): (r: seq<Byte>)
    ensures 1 <= |r| <= 4
  {
    var n := c as int;
    if n < 0x80 then [n]
    else if n < 0x800 then [0xC0 + n / 0x40, 0x80 + n % 0x40]
    else if n < 0x10000 then [0xE0 + n / 0x40 / 0x40, 0x80 + n / 0x40 % 0x40, 0x80 + n % 0x40]
    else [0xF0 + n / 0x40 / 0x40 / 0x40, 0x80 + n / 0x40 / 0x40 % 0x40, 0x80 + n / 0x40 % 0x40, 0x80 + n % 0x40]
  }

  function Encode(s: string): seq<Byte> {
    if s == "" then [] else EncodeChar(s[0]) + Encode(s[1..])
  }

  predicate IsTail(b: Byte) {
    0x80 <= b < 0xC0
  }

  predicate IsScalar(n: int) {
    0 <= n < 0xD800 || 0xE000 <= n < 0x11_0000
  }

  /** Reads one scalar value off the front: shortest form only, no surrogates, nothing past U+10FFFF. */
  function DecodeChar(b: seq<Byte>): (r: Option<(char, nat)>)
    requires b != []
    ensures r.Some? ==> 1 <= r.value.1 <= |b|
  {
    if b[0] < 0x80 then Some((b[0] as char, 1))
    else if b[0] < 0xC0 || 0xF8 <= b[0] then None
    else if b[0] < 0xE0 then
      if |b| < 2 || !IsTail(b[1]) then None
      else
        var n := Bits2(b[0] - 0xC0, b[1] - 0x80);
        if n < 0x80 then None else Some((n as char, 2))
    else if b[0] < 0xF0 then
      if |b| < 3 || !IsTail(b[1]) || !IsTail(b[2]) then None
      else
        var n := Bits3(b[0] - 0xE0, b[1] - 0x80, b[2] - 0x80);
        if n < 0x800 || !IsScalar(n) then None else Some((n as char, 3))
    else
      if |b| < 4 || !IsTail(b[1]) || !IsTail(b[2]) || !IsTail(b[3]) then None
      else
        var n := Bits4(b[0] - 0xF0, b[1] - 0x80, b[2] - 0x80, b[3] - 0x80);
        if n < 0x10000 || !IsScalar(n) then None else Some((n as char, 4))
  }

  function Decode(b: seq<Byte>): Option<string> {
    if b == [] then Some("")
    else
      match DecodeChar(b)
      case None => None
      case Some((c, n)) =>
        match Decode(b[n..])
        case None => None
        case Some(rest) => Some([c] + rest)
  }

  lemma SixBits(n: int)
    requires n >= 0
    ensures Bits2(n / 0x40, n % 0x40) == n
  {
  }

  lemma SixBitsBack(a: int, b: int)
    requires a >= 0 && 0 <= b < 0x40
    ensures Bits2(a, b) / 0x40 == a && Bits2(a, b) % 0x40 == b
  {
  }

  lemma DecodeTwo(n: int, rest: seq<Byte>)
    requires 0x80 <= n < 0x800
    ensures DecodeChar(EncodeChar(n as char) + rest) == Some((n as char, 2))
  {
    SixBits(n);
  }

  lemma DecodeThree(n: int, rest: seq<Byte>)
    requires 0x800 <= n < 0x10000 && IsScalar(n)
    ensures DecodeChar(EncodeChar(n as char) + rest) == Some((n as char, 3))
  {
    SixBits(n);
    SixBits(n / 0x40);
  }

  lemma DecodeFour(n: int, rest: seq<Byte>)
    requires 0x10000 <= n < 0x11_0000
    ensures DecodeChar(EncodeChar(n as char) + rest) == Some((n as char, 4))
  {
    SixBits(n);
    SixBits(n / 0x40);
    SixBits(n / 0x40 / 0x40);
  }

  lemma DecodeEncodedChar(c: char, rest: seq<Byte>)
    ensures DecodeChar(EncodeChar(c) + rest) == Some((c, |EncodeChar(c)|))
  {
    var n := c as int;
    if n < 0x80 {
      assert EncodeChar(c) == [n];
    } else if n < 0x800 {
      DecodeTwo(n, rest);
    } else if n < 0x10000 {
      DecodeThree(n, rest);
    } else {
      DecodeFour(n, rest);
    }
  }

  lemma EncodeDecodedChar(b: seq<Byte>)
    requires b != [] && DecodeChar(b).Some?
    ensures b[..DecodeChar(b).value.1] == EncodeChar(DecodeChar(b).value.0)
  {
    var (c, k) := DecodeChar(b).value;
    if k == 2 {
      SixBitsBack(b[0] - 0xC0, b[1] - 0x80);
    } else if k == 3 {
      SixBitsBack(b[0] - 0xE0, b[1] - 0x80);
      SixBitsBack(Bits2(b[0] - 0xE0, b[1] - 0x80), b[2] - 0x80);
    } else if k == 4 {
      SixBitsBack(b[0] - 0xF0, b[1] - 0x80);
      SixBitsBack(Bits2(b[0] - 0xF0, b[1] - 0x80), b[2] - 0x80);
      SixBitsBack(Bits3(b[0] - 0xF0, b[1] - 0x80, b[2] - 0x80), b[3] - 0x80);
    }
  }

  /** The decoder reads back every encoding. */
  lemma {:induction false} DecodeEncode(s: string)
    ensures Decode(Encode(s)) == Some(s)
  {
    if s != "" {
      DecodeEncodedChar(s[0], Encode(s[1..]));
      DecodeEncode(s[1..]);
      DropPrefix(EncodeChar(s[0]), Encode(s[1..]));
      HeadAndTail(s);
    }
  }

  /** What it accepts is an encoding of what it returns. */
  lemma {:induction false} EncodeDecode(b: seq<Byte>)
    requires Decode(b).Some?
    ensures Encode(Decode(b).value) == b
  {
    if b != [] {
      var (c, n) := DecodeChar(b).value;
      EncodeDecodedChar(b);
      EncodeDecode(b[n..]);
    }
  }

  /** The decoder accepts exactly the encodings, each as the string it encodes. */
  lemma DecodeExactly(b: seq<Byte>, s: string)
    ensures Decode(b) == Some(s) <==> b == Encode(s)
  {
    DecodeEncode(s);
    if Decode(b).Some? {
      EncodeDecode(b);
    }
  }

  lemma {:induction false} EncodeConcat(a: string, b: string)
    ensures Encode(a + b) == Encode(a) + Encode(b)
  {
    if a == "" {
      EmptyIsUnit(b);
      EmptyIsUnit(Encode(b));
    } else {
      EncodeConcat(a[1..], b);
      TailOfConcat(a, b);
      Assoc(EncodeChar(a[0]), Encode(a[1..]), Encode(b));
    }
  }
}
