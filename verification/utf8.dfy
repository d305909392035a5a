/**
 * The platform charset used by `String.getBytes()` and `new String(byte[])`,
 * taken to be UTF-8. Dafny strings hold Unicode scalar values, so every
 * string has an encoding; bytes that are not well-formed UTF-8 decode to
 * U+FFFD one byte at a time.
 */
module Utf8 {

  type byte = x: int | 0 <= x < 256

  predicate IsContinuation(b: byte) {
    0x80 <= b < 0xC0
  }

  /** The UTF-8 encoding of one scalar value. */
  function EncodeChar(c: char): (r: seq<byte>)
    ensures 1 <= |r| <= 4
  {
    var cp := c as int;
    var t1 := cp / 64;
    var t2 := t1 / 64;
    if cp < 0x80 then [cp]
    else if cp < 0x800 then [0xC0 + t1, 0x80 + cp % 64]
    else if cp < 0x1_0000 then [0xE0 + t2, 0x80 + t1 % 64, 0x80 + cp % 64]
    else [0xF0 + t2 / 64, 0x80 + t2 % 64, 0x80 + t1 % 64, 0x80 + cp % 64]
  }

  /** `s.getBytes()`. */
  function Encode(s: string): seq<byte>
  {
    if s == [] then [] else EncodeChar(s[0]) + Encode(s[1..])
  }

  /** Decodes the scalar value at the head of `b`; returns it and the number of bytes consumed. */
  function DecodeOne(b: seq<byte>): (r: (char, nat))
    requires |b| > 0
    ensures 1 <= r.1 <= |b|
  {
    var b0 := b[0] as int;
    if b0 < 0x80 then
      (b0 as char, 1)
    else if 0xC2 <= b0 < 0xE0 && |b| >= 2 && IsContinuation(b[1]) then
      (((b0 - 0xC0) * 64 + (b[1] as int - 0x80)) as char, 2)
    else if 0xE0 <= b0 < 0xF0 && |b| >= 3 && IsContinuation(b[1]) && IsContinuation(b[2]) then
      var v := (b0 - 0xE0) * 4096 + (b[1] as int - 0x80) * 64 + (b[2] as int - 0x80);
      if 0x800 <= v && !(0xD800 <= v < 0xE000) then (v as char, 3) else (0xFFFD as char, 1)
    else if 0xF0 <= b0 < 0xF5 && |b| >= 4 && IsContinuation(b[1]) && IsContinuation(b[2]) && IsContinuation(b[3]) then
      var v := (b0 - 0xF0) * 262144 + (b[1] as int - 0x80) * 4096 + (b[2] as int - 0x80) * 64 + (b[3] as int - 0x80);
      if 0x1_0000 <= v < 0x11_0000 then (v as char, 4) else (0xFFFD as char, 1)
    else
      (0xFFFD as char, 1)
  }

  /** `new String(bytes)`. */
  function Decode(b: seq<byte>): string
    decreases |b|
  {
    if b == [] then [] else
    var (c, n) := DecodeOne(b);
    [c] + Decode(b[n..])
  }

  /** Bytes that survive a decode/encode round trip: the bytes of some string. */
  predicate IsText(b: seq<byte>) {
    Encode(Decode(b)) == b
  }

  lemma Split64(x: nat)
    ensures x == (x / 64) * 64 + x % 64 && 0 <= x % 64 < 64
  {
  }

  lemma DecodeOneEncodeChar(c: char, rest: seq<byte>)
    ensures DecodeOne(EncodeChar(c) + rest) == (c, |EncodeChar(c)|)
  {
    var cp := c as int;
    var t1 := cp / 64;
    var t2 := t1 / 64;
    Split64(cp);
    Split64(t1);
    Split64(t2);
    var b := EncodeChar(c) + rest;
    if cp < 0x80 {
    } else if cp < 0x800 {
      assert b[0] as int - 0xC0 == t1 && b[1] as int - 0x80 == cp % 64;
    } else if cp < 0x1_0000 {
      assert b[0] as int - 0xE0 == t2 && b[1] as int - 0x80 == t1 % 64 && b[2] as int - 0x80 == cp % 64;
      assert (b[0] as int - 0xE0) * 4096 + (b[1] as int - 0x80) * 64 + (b[2] as int - 0x80) == cp;
    } else {
      assert b[0] as int - 0xF0 == t2 / 64 && b[1] as int - 0x80 == t2 % 64;
      assert b[2] as int - 0x80 == t1 % 64 && b[3] as int - 0x80 == cp % 64;
      assert (b[0] as int - 0xF0) * 262144 + (b[1] as int - 0x80) * 4096 + (b[2] as int - 0x80) * 64 + (b[3] as int - 0x80) == cp;
    }
  }

  /** `new String(s.getBytes())` gives back `s`. */
  lemma {:induction false} DecodeEncode(s: string)
    ensures Decode(Encode(s)) == s
  {
    if s != [] {
      var e := EncodeChar(s[0]);
      DecodeOneEncodeChar(s[0], Encode(s[1..]));
      assert (e + Encode(s[1..]))[|e|..] == Encode(s[1..]);
      DecodeEncode(s[1..]);
    }
  }

  /** The bytes of a string are text. */
  lemma EncodeIsText(s: string)
    ensures IsText(Encode(s))
  {
    DecodeEncode(s);
  }

  /** Different strings have different bytes. */
  lemma EncodeInjective(s: string, t: string)
    requires Encode(s) == Encode(t)
    ensures s == t
  {
    DecodeEncode(s);
    DecodeEncode(t);
  }
}
