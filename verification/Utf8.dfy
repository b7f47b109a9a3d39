/** UTF-8 as `str.encode()` produces it, and the strict decoder of RFC 3629 to read it back: no
    surrogates, no stray or missing continuation bytes, and only the shortest form. */
module Utf8 {
  import opened Common

  function EncodeChar(c: char): (r: seq<byte>)
    ensures 1 <= |r| <= 4
  {
    var v := c as int;
    if v < 0x80 then [v as byte]
    else if v < 0x800 then [(0xC0 + v / 64) as byte, (0x80 + v % 64) as byte]
    else if v < 0x10000 then
      [(0xE0 + v / 64 / 64) as byte, (0x80 + v / 64 % 64) as byte, (0x80 + v % 64) as byte]
    else
      [(0xF0 + v / 64 / 64 / 64) as byte, (0x80 + v / 64 / 64 % 64) as byte,
       (0x80 + v / 64 % 64) as byte, (0x80 + v % 64) as byte]
  }

  /** The images of the characters of `s`, one after the other. */
  function Flatten(s: string, f: char -> seq<byte>): seq<byte> {
    if s == "" then [] else Flatten(s[..|s| - 1], f) + f(s[|s| - 1])
  }

  lemma {:induction false} FlattenConcat(a: string, b: string, f: char -> seq<byte>)
    ensures Flatten(a + b, f) == Flatten(a, f) + Flatten(b, f)
    decreases |b|
  {
    if b == "" {
      assert a + b == a;
    } else {
      FlattenConcat(a, b[..|b| - 1], f);
      assert (a + b)[..|a + b| - 1] == a + b[..|b| - 1];
    }
  }

  lemma FlattenFirst(s: string, f: char -> seq<byte>)
    requires s != ""
    ensures Flatten(s, f) == f(s[0]) + Flatten(s[1..], f)
  {
    FlattenConcat(s[..1], s[1..], f);
    assert s == s[..1] + s[1..];
    assert s[..1][..0] == "";
  }

  function Encode(s: string): seq<byte> {
    Flatten(s, EncodeChar)
  }

  /** Messages can be encoded one by one. */
  lemma EncodeConcat(a: string, b: string)
    ensures Encode(a + b) == Encode(a) + Encode(b)
  {
    FlattenConcat(a, b, EncodeChar);
  }

  /** A code point that is a character, as opposed to a surrogate or out of range. */
  predicate IsScalar(v: int) {
    0 <= v < 0xD800 || 0xE000 <= v < 0x110000
  }

  /** Length announced by a lead byte, 0 when it is none. */
  function LeadLength(b: byte): nat {
    if b < 0x80 then 1
    else if 0xC0 <= b < 0xE0 then 2
    else if 0xE0 <= b < 0xF0 then 3
    else if 0xF0 <= b < 0xF8 then 4
    else 0
  }

  predicate IsTail(b: byte) {
    0x80 <= b < 0xC0
  }

  /** The low six bits of a continuation byte. */
  function Tail(b: byte): int {
    b as int - 0x80
  }

  /** The length of the only form section 3 of RFC 3629 allows for a code point. */
  function ShortestLength(v: int): nat {
    if v <= 0x7F then 1 else if v <= 0x7FF then 2 else if v <= 0xFFFF then 3 else 4
  }

  /** The code point spelled by the first `LeadLength` bytes of `bs`. */
  function CodePoint(bs: seq<byte>): int
    requires |bs| > 0 && LeadLength(bs[0]) <= |bs|
  {
    match LeadLength(bs[0])
    case 1 => bs[0] as int
    case 2 => (bs[0] as int - 0xC0) * 64 + Tail(bs[1])
    case 3 => ((bs[0] as int - 0xE0) * 64 + Tail(bs[1])) * 64 + Tail(bs[2])
    case 4 => (((bs[0] as int - 0xF0) * 64 + Tail(bs[1])) * 64 + Tail(bs[2])) * 64 + Tail(bs[3])
    case _ => -1
  }

  /** `bs` begins with a well-formed character. */
  predicate StartsWell(bs: seq<byte>)
    requires bs != []
  {
    var n := LeadLength(bs[0]);
    && 0 < n <= |bs|
    && (forall i :: 1 <= i < n ==> IsTail(bs[i]))
    && IsScalar(CodePoint(bs)) && ShortestLength(CodePoint(bs)) == n
  }

  function Decode(bs: seq<byte>): Option<string>
    decreases |bs|
  {
    if bs == [] then Some("")
    else if !StartsWell(bs) then None
    else
      match Decode(bs[LeadLength(bs[0])..])
      case None => None
      case Some(rest) => Some([CodePoint(bs) as char] + rest)
  }

  lemma CharRoundTrip(c: char, rest: seq<byte>)
    ensures var bs := EncodeChar(c) + rest;
            && LeadLength(bs[0]) == |EncodeChar(c)|
            && StartsWell(bs) && CodePoint(bs) == c as int
  {
    var v := c as int;
    var bs := EncodeChar(c) + rest;
    if v < 0x80 {
    } else if v < 0x800 {
      assert bs[0] as int == 0xC0 + v / 64 && Tail(bs[1]) == v % 64;
    } else if v < 0x10000 {
      assert bs[0] as int == 0xE0 + v / 64 / 64 && Tail(bs[1]) == v / 64 % 64 && Tail(bs[2]) == v % 64;
    } else {
      assert bs[0] as int == 0xF0 + v / 64 / 64 / 64 && Tail(bs[1]) == v / 64 / 64 % 64;
      assert Tail(bs[2]) == v / 64 % 64 && Tail(bs[3]) == v % 64;
    }
  }

  /** Reading the encoded bytes back gives the text: characters are never split or merged. */
  lemma {:induction false} RoundTrip(s: string)
    ensures Decode(Encode(s)) == Some(s)
    decreases |s|
  {
    if s != "" {
      FlattenFirst(s, EncodeChar);
      CharRoundTrip(s[0], Encode(s[1..]));
      assert (EncodeChar(s[0]) + Encode(s[1..]))[|EncodeChar(s[0])|..] == Encode(s[1..]);
      RoundTrip(s[1..]);
      assert s == [s[0]] + s[1..];
    }
  }

  /** A well-formed first character is spelled exactly as the encoder spells it. */
  lemma WellFormedIsEncoded(bs: seq<byte>)
    requires bs != [] && StartsWell(bs)
    ensures EncodeChar(CodePoint(bs) as char) == bs[..LeadLength(bs[0])]
  {
    var n := LeadLength(bs[0]);
    var v := CodePoint(bs);
    if n == 2 {
      assert v / 64 == bs[0] as int - 0xC0 && v % 64 == Tail(bs[1]);
    } else if n == 3 {
      assert v / 64 == (bs[0] as int - 0xE0) * 64 + Tail(bs[1]) && v % 64 == Tail(bs[2]);
    } else if n == 4 {
      assert v / 64 == ((bs[0] as int - 0xF0) * 64 + Tail(bs[1])) * 64 + Tail(bs[2]) && v % 64 == Tail(bs[3]);
      assert v / 64 / 64 == (bs[0] as int - 0xF0) * 64 + Tail(bs[1]) && v / 64 % 64 == Tail(bs[2]);
    }
  }

  /** There is no other encoding: bytes that decode to a text are its encoding. */
  lemma {:induction false} OnlyEncoding(bs: seq<byte>, s: string)
    requires Decode(bs) == Some(s)
    ensures bs == Encode(s)
    decreases |bs|
  {
    if bs != [] {
      var n := LeadLength(bs[0]);
      OnlyEncoding(bs[n..], s[1..]);
      WellFormedIsEncoded(bs);
      FlattenFirst(s, EncodeChar);
      assert bs == bs[..n] + bs[n..];
    }
  }

  /** ASCII stays as it is, byte for character. */
  lemma {:induction false} AsciiIsItself(s: string)
    requires forall i :: 0 <= i < |s| ==> s[i] as int < 0x80
    ensures |Encode(s)| == |s| && forall i :: 0 <= i < |s| ==> Encode(s)[i] as int == s[i] as int
  {
    if s != "" {
      AsciiIsItself(s[..|s| - 1]);
    }
  }
}
