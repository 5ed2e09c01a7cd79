/**
  UTF-8 as defined by section 4 of RFC 3629: which byte strings are
  well-formed, and the code points they encode. This is the check that
  `String::from_utf8` performs on a mail body before it is posted.
*/
module Utf8 {
  import opened Common

  /** UTF8-tail = %x80-BF */
  predicate IsTail(b: byte) { 0x80 <= b <= 0xBF }

  /**
    The length of the UTF8-char production of RFC 3629 section 4 that starts
    `bytes`, or 0 when no UTF8-char starts there.
  */
  function CharLength(bytes: seq<byte>): (n: nat)
    ensures n <= |bytes| && n <= 4
    ensures |bytes| > 0 && bytes[0] < 0x80 ==> n == 1
  {
    if |bytes| == 0 then 0
    else
      var b0 := bytes[0];
      if b0 <= 0x7F then 1
      else if 0xC2 <= b0 <= 0xDF then
        if |bytes| >= 2 && IsTail(bytes[1]) then 2 else 0
      else if b0 == 0xE0 then
        if |bytes| >= 3 && 0xA0 <= bytes[1] <= 0xBF && IsTail(bytes[2]) then 3 else 0
      else if 0xE1 <= b0 <= 0xEC || 0xEE <= b0 <= 0xEF then
        if |bytes| >= 3 && IsTail(bytes[1]) && IsTail(bytes[2]) then 3 else 0
      else if b0 == 0xED then
        if |bytes| >= 3 && 0x80 <= bytes[1] <= 0x9F && IsTail(bytes[2]) then 3 else 0
      else if b0 == 0xF0 then
        if |bytes| >= 4 && 0x90 <= bytes[1] <= 0xBF && IsTail(bytes[2]) && IsTail(bytes[3]) then 4 else 0
      else if 0xF1 <= b0 <= 0xF3 then
        if |bytes| >= 4 && IsTail(bytes[1]) && IsTail(bytes[2]) && IsTail(bytes[3]) then 4 else 0
      else if b0 == 0xF4 then
        if |bytes| >= 4 && 0x80 <= bytes[1] <= 0x8F && IsTail(bytes[2]) && IsTail(bytes[3]) then 4 else 0
      else 0
  }

  /** UTF8-octets = *( UTF8-char ) */
  predicate ValidUtf8(bytes: seq<byte>)
    decreases |bytes|
  {
    bytes == [] || (CharLength(bytes) > 0 && ValidUtf8(bytes[CharLength(bytes)..]))
  }

  /** The six payload bits of a continuation byte. */
  function Payload(b: byte): int { b as int - 0x80 }

  /** The scalar value spelled by the UTF8-char that starts `bytes`. */
  function CodePoint(bytes: seq<byte>): int
    requires CharLength(bytes) > 0
  {
    var n := CharLength(bytes);
    var b0 := bytes[0] as int;
    if n == 1 then b0
    else if n == 2 then (b0 - 0xC0) * 0x40 + Payload(bytes[1])
    else if n == 3 then ((b0 - 0xE0) * 0x40 + Payload(bytes[1])) * 0x40 + Payload(bytes[2])
    else (((b0 - 0xF0) * 0x40 + Payload(bytes[1])) * 0x40 + Payload(bytes[2])) * 0x40 + Payload(bytes[3])
  }

  lemma CodePointIsScalar(bytes: seq<byte>)
    requires CharLength(bytes) > 0
    ensures 0 <= CodePoint(bytes) < 0xD800 || 0xE000 <= CodePoint(bytes) < 0x11_0000
  {}

  /** The character spelled by the UTF8-char that starts `bytes`. */
  function DecodeChar(bytes: seq<byte>): char
    requires CharLength(bytes) > 0
  {
    CodePointIsScalar(bytes);
    CodePoint(bytes) as char
  }

  /** The UTF-8 encoding of one scalar value. */
  function EncodeChar(c: char): (bytes: seq<byte>)
    ensures 1 <= |bytes| <= 4
  {
    var cp := c as int;
    if cp < 0x80 then [cp]
    else if cp < 0x800 then [0xC0 + cp / 0x40, 0x80 + cp % 0x40]
    else if cp < 0x1_0000 then [0xE0 + cp / 0x1000, 0x80 + (cp / 0x40) % 0x40, 0x80 + cp % 0x40]
    else [0xF0 + cp / 0x40000, 0x80 + (cp / 0x1000) % 0x40, 0x80 + (cp / 0x40) % 0x40, 0x80 + cp % 0x40]
  }

  /** The UTF-8 encoding of a string (`String::into_bytes`). */
  function Encode(s: string): seq<byte>
  {
    if s == [] then [] else EncodeChar(s[0]) + Encode(s[1..])
  }

  /**
    `String::from_utf8`: the text a byte string spells, or `None` when it is
    not well-formed UTF-8. The text re-encodes to exactly the bytes given.
  */
  function Decode(bytes: seq<byte>): (r: Option<string>)
    ensures r.Some? <==> ValidUtf8(bytes)
    ensures r.Some? ==> Encode(r.value) == bytes
    decreases |bytes|
  {
    if bytes == [] then Some([])
    else
      var n := CharLength(bytes);
      if n == 0 then None
      else
        match Decode(bytes[n..])
        case None => None
        case Some(rest) =>
          EncodeStep(bytes, rest);
          Some([DecodeChar(bytes)] + rest)
  }

  /** Re-encoding a decoded first character before a re-encoding tail gives back the bytes. */
  lemma EncodeStep(bytes: seq<byte>, rest: string)
    requires CharLength(bytes) > 0
    requires Encode(rest) == bytes[CharLength(bytes)..]
    ensures Encode([DecodeChar(bytes)] + rest) == bytes
  {
    var n := CharLength(bytes);
    EncodeDecodeChar(bytes);
    assert ([DecodeChar(bytes)] + rest)[1..] == rest;
    assert bytes == bytes[..n] + bytes[n..];
  }

  lemma Split64(x: int, q: int, r: int)
    requires 0 <= r < 0x40 && x == q * 0x40 + r
    ensures x / 0x40 == q && x % 0x40 == r
  {}

  lemma Div4096(x: nat)
    ensures x / 0x40 / 0x40 == x / 0x1000
  {}

  lemma Div262144(x: nat)
    ensures x / 0x1000 / 0x40 == x / 0x40000
  {}

  /** Encoding the scalar value of a UTF8-char gives back its bytes. */
  lemma EncodeDecodeChar(bytes: seq<byte>)
    requires CharLength(bytes) > 0
    ensures EncodeChar(DecodeChar(bytes)) == bytes[..CharLength(bytes)]
  {
    var n := CharLength(bytes);
    var cp := CodePoint(bytes);
    assert DecodeChar(bytes) as int == cp;
    var b0 := bytes[0] as int;
    if n == 2 {
      Split64(cp, b0 - 0xC0, Payload(bytes[1]));
    } else if n == 3 {
      var hi := (b0 - 0xE0) * 0x40 + Payload(bytes[1]);
      Split64(cp, hi, Payload(bytes[2]));
      Split64(hi, b0 - 0xE0, Payload(bytes[1]));
      Div4096(cp);
    } else if n == 4 {
      var hi := (b0 - 0xF0) * 0x40 + Payload(bytes[1]);
      var mid := hi * 0x40 + Payload(bytes[2]);
      Split64(cp, mid, Payload(bytes[3]));
      Split64(mid, hi, Payload(bytes[2]));
      Split64(hi, b0 - 0xF0, Payload(bytes[1]));
      Div4096(cp);
      Div262144(cp);
    }
  }

  /** The encoding of a character is a UTF8-char spelling that character. */
  lemma DecodeEncodeChar(c: char, rest: seq<byte>)
    ensures CharLength(EncodeChar(c) + rest) == |EncodeChar(c)|
    ensures DecodeChar(EncodeChar(c) + rest) == c
  {
    var cp := c as int;
    var bytes := EncodeChar(c) + rest;
    if cp < 0x80 {
    } else if cp < 0x800 {
      Split64(cp, cp / 0x40, cp % 0x40);
    } else if cp < 0x1_0000 {
      Div4096(cp);
      var hi := cp / 0x40;
      Split64(cp, hi, cp % 0x40);
      Split64(hi, hi / 0x40, hi % 0x40);
      assert CodePoint(bytes) == cp;
    } else {
      Div4096(cp);
      Div262144(cp);
      var mid := cp / 0x40;
      var hi := mid / 0x40;
      Split64(cp, mid, cp % 0x40);
      Split64(mid, hi, mid % 0x40);
      Split64(hi, hi / 0x40, hi % 0x40);
      assert CodePoint(bytes) == cp;
    }
  }

  /** Every string's encoding is well-formed UTF-8 and decodes back to the string. */
  lemma {:induction false} DecodeEncode(s: string)
    ensures Decode(Encode(s)) == Some(s)
  {
    if s != [] {
      var head := EncodeChar(s[0]);
      var tail := Encode(s[1..]);
      DecodeEncodeChar(s[0], tail);
      assert (head + tail)[|head|..] == tail;
      DecodeEncode(s[1..]);
      assert [s[0]] + s[1..] == s;
    }
  }

  /** Seven-bit ASCII is well-formed UTF-8: every byte below 0x80 is a UTF8-char of its own. */
  lemma {:induction false} AsciiIsValid(bytes: seq<byte>)
    requires forall i :: 0 <= i < |bytes| ==> bytes[i] < 0x80
    ensures ValidUtf8(bytes)
  {
    if bytes != [] {
      AsciiIsValid(bytes[1..]);
    }
  }

  /** Distinct well-formed byte strings spell distinct text. */
  lemma DecodeInjective(a: seq<byte>, b: seq<byte>)
    requires ValidUtf8(a) && ValidUtf8(b)
    ensures Decode(a) == Decode(b) <==> a == b
  {}
}
