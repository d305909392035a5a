/**
 * The Base64 coding of binary log payloads: `java.util.Base64.getEncoder()`
 * and `getDecoder()`, the basic alphabet of section 4 of RFC 4648.
 * The encoder always pads with '='. The decoder follows the JDK's rules:
 * padding may be omitted, a final unit of one character is an error,
 * padding must be complete when present, nothing may follow it, and the
 * unused low bits of a final partial unit are ignored.
 */
module Base64 {
  import opened Wrappers
  import opened Utf8

  /** The value of a character of the alphabet, or -1 for any other character. */
  function Sextet(c: char): (v: int)
    ensures -1 <= v < 64
  {
    if 'A' <= c <= 'Z' then c as int - 'A' as int
    else if 'a' <= c <= 'z' then c as int - 'a' as int + 26
    else if '0' <= c <= '9' then c as int - '0' as int + 52
    else if c == '+' then 62
    else if c == '/' then 63
    else -1
  }

  /** The alphabet character for a six-bit value. */
  function Digit(v: int): (c: char)
    requires 0 <= v < 64
    ensures Sextet(c) == v && c != '='
  {
    if v < 26 then ('A' as int + v) as char
    else if v < 52 then ('a' as int + v - 26) as char
    else if v < 62 then ('0' as int + v - 52) as char
    else if v == 62 then '+'
    else '/'
  }

  /** `Base64.getEncoder().encodeToString(b)`. */
  function Encode(b: seq<byte>): (s: string)
    ensures |s| == 4 * ((|b| + 2) / 3)
  {
    if |b| == 0 then ""
    else if |b| == 1 then
      [Digit(b[0] / 4), Digit((b[0] % 4) * 16), '=', '=']
    else if |b| == 2 then
      [Digit(b[0] / 4), Digit((b[0] % 4) * 16 + b[1] / 16), Digit((b[1] % 16) * 4), '=']
    else
      [Digit(b[0] / 4), Digit((b[0] % 4) * 16 + b[1] / 16), Digit((b[1] % 16) * 4 + b[2] / 64), Digit(b[2] % 64)]
      + Encode(b[3..])
  }

  /** The bytes carried by a final unit of zero, two or three sextets; none for a single one. */
  function Finish(unit: seq<int>): Option<seq<byte>>
    requires |unit| < 4 && forall i :: 0 <= i < |unit| ==> 0 <= unit[i] < 64
  {
    if |unit| == 0 then Some([])
    else if |unit| == 1 then None
    else if |unit| == 2 then Some([unit[0] * 4 + unit[1] / 16])
    else Some([unit[0] * 4 + unit[1] / 16, (unit[1] % 16) * 16 + unit[2] / 4])
  }

  function Bytes3(u0: int, u1: int, u2: int, u3: int): seq<byte>
    requires 0 <= u0 < 64 && 0 <= u1 < 64 && 0 <= u2 < 64 && 0 <= u3 < 64
  {
    [u0 * 4 + u1 / 16, (u1 % 16) * 16 + u2 / 4, (u2 % 4) * 64 + u3]
  }

  /**
   * The decoding loop: `unit` holds the sextets read so far in the current
   * four-character unit.
   */
  function DecodeFrom(s: string, unit: seq<int>): Option<seq<byte>>
    requires |unit| < 4 && forall i :: 0 <= i < |unit| ==> 0 <= unit[i] < 64
    decreases |s|
  {
    if s == [] then Finish(unit)
    else if s[0] == '=' then
      if |unit| < 2 then None
      else if |unit| == 2 then (if s[1..] == "=" then Finish(unit) else None)
      else (if |s| == 1 then Finish(unit) else None)
    else if Sextet(s[0]) < 0 then None
    else if |unit| == 3 then
      match DecodeFrom(s[1..], [])
      case None => None
      case Some(rest) => Some(Bytes3(unit[0], unit[1], unit[2], Sextet(s[0])) + rest)
    else DecodeFrom(s[1..], unit + [Sextet(s[0])])
  }

  /** `Base64.getDecoder().decode(s)`; None where the JDK throws IllegalArgumentException. */
  function Decode(s: string): Option<seq<byte>>
  {
    DecodeFrom(s, [])
  }

  lemma Group3(b0: byte, b1: byte, b2: byte)
    ensures Bytes3(b0 / 4, (b0 % 4) * 16 + b1 / 16, (b1 % 16) * 4 + b2 / 64, b2 % 64) == [b0, b1, b2]
  {
    var u1 := (b0 % 4) * 16 + b1 / 16;
    var u2 := (b1 % 16) * 4 + b2 / 64;
    assert u1 / 16 == b0 % 4 && u1 % 16 == b1 / 16;
    assert u2 / 4 == b1 % 16 && u2 % 4 == b2 / 64;
  }

  /** Four alphabet characters followed by `rest` decode to three bytes followed by what `rest` decodes to. */
  lemma FullUnit(s: string, rest: string)
    requires |s| == 4 && forall i :: 0 <= i < 4 ==> Sextet(s[i]) >= 0
    ensures DecodeFrom(s + rest, []) ==
      match DecodeFrom(rest, [])
      case None => None
      case Some(r) => Some(Bytes3(Sextet(s[0]), Sextet(s[1]), Sextet(s[2]), Sextet(s[3])) + r)
  {
    var t := s + rest;
    var u0, u1, u2 := Sextet(s[0]), Sextet(s[1]), Sextet(s[2]);
    assert t[0] == s[0] && t[1..][0] == s[1] && t[2..][0] == s[2] && t[3..][0] == s[3];
    assert [] + [u0] == [u0] && [u0] + [u1] == [u0, u1] && [u0, u1] + [u2] == [u0, u1, u2];
    assert DecodeFrom(t, []) == DecodeFrom(t[1..], [u0]);
    assert t[1..][1..] == t[2..] && t[2..][1..] == t[3..] && t[3..][1..] == rest;
    assert DecodeFrom(t[1..], [u0]) == DecodeFrom(t[2..], [u0, u1]);
    assert DecodeFrom(t[2..], [u0, u1]) == DecodeFrom(t[3..], [u0, u1, u2]);
  }

  lemma OneByte(b0: byte)
    ensures Decode(Encode([b0])) == Some([b0])
  {
    var s := Encode([b0]);
    var u0, u1 := b0 / 4, (b0 % 4) * 16;
    assert [] + [u0] == [u0] && [u0] + [u1] == [u0, u1];
    assert DecodeFrom(s, []) == DecodeFrom(s[1..], [u0]);
    assert DecodeFrom(s[1..], [u0]) == DecodeFrom(s[2..], [u0, u1]);
    assert s[2..][0] == '=' && s[2..][1..] == "=";
    assert u0 * 4 + u1 / 16 == b0;
  }

  lemma TwoBytes(b0: byte, b1: byte)
    ensures Decode(Encode([b0, b1])) == Some([b0, b1])
  {
    var s := Encode([b0, b1]);
    var u0, u1, u2 := b0 / 4, (b0 % 4) * 16 + b1 / 16, (b1 % 16) * 4;
    assert [] + [u0] == [u0] && [u0] + [u1] == [u0, u1] && [u0, u1] + [u2] == [u0, u1, u2];
    assert DecodeFrom(s, []) == DecodeFrom(s[1..], [u0]);
    assert DecodeFrom(s[1..], [u0]) == DecodeFrom(s[2..], [u0, u1]);
    assert DecodeFrom(s[2..], [u0, u1]) == DecodeFrom(s[3..], [u0, u1, u2]);
    assert s[3..][0] == '=' && |s[3..]| == 1;
    assert u1 / 16 == b0 % 4 && u1 % 16 == b1 / 16 && u2 / 4 == b1 % 16;
  }

  /** Decoding what the encoder produced gives back the bytes. */
  lemma {:induction false} DecodeEncode(b: seq<byte>)
    ensures Decode(Encode(b)) == Some(b)
    decreases |b|
  {
    if |b| == 0 {
    } else if |b| == 1 {
      assert b == [b[0]];
      OneByte(b[0]);
    } else if |b| == 2 {
      assert b == [b[0], b[1]];
      TwoBytes(b[0], b[1]);
    } else {
      var u0, u1 := b[0] / 4, (b[0] % 4) * 16 + b[1] / 16;
      var u2, u3 := (b[1] % 16) * 4 + b[2] / 64, b[2] % 64;
      var head := [Digit(u0), Digit(u1), Digit(u2), Digit(u3)];
      assert Encode(b) == head + Encode(b[3..]);
      FullUnit(head, Encode(b[3..]));
      DecodeEncode(b[3..]);
      Group3(b[0], b[1], b[2]);
      assert b == [b[0], b[1], b[2]] + b[3..];
    }
  }

  /** A character outside the alphabet, other than the padding '=', makes decoding fail. */
  lemma {:induction false} ForeignCharRejected(s: string, unit: seq<int>, k: nat)
    requires |unit| < 4 && forall i :: 0 <= i < |unit| ==> 0 <= unit[i] < 64
    requires k < |s| && Sextet(s[k]) < 0 && s[k] != '='
    ensures DecodeFrom(s, unit) == None
    decreases |s|
  {
    if k > 0 && s[0] != '=' && Sextet(s[0]) >= 0 {
      if |unit| == 3 {
        ForeignCharRejected(s[1..], [], k - 1);
      } else {
        ForeignCharRejected(s[1..], unit + [Sextet(s[0])], k - 1);
      }
    }
  }

  /** A lone character can never be a whole unit: "Last unit does not have enough valid bits". */
  lemma DanglingCharRejected(s: string)
    requires |s| % 4 == 1 && forall i :: 0 <= i < |s| ==> Sextet(s[i]) >= 0
    ensures Decode(s) == None
  {
    DanglingFrom(s, []);
  }

  lemma {:induction false} DanglingFrom(s: string, unit: seq<int>)
    requires |unit| < 4 && forall i :: 0 <= i < |unit| ==> 0 <= unit[i] < 64
    requires (|s| + |unit|) % 4 == 1 && forall i :: 0 <= i < |s| ==> Sextet(s[i]) >= 0
    ensures DecodeFrom(s, unit) == None
    decreases |s|
  {
    if s != [] {
      if |unit| == 3 {
        DanglingFrom(s[1..], []);
      } else {
        DanglingFrom(s[1..], unit + [Sextet(s[0])]);
      }
    }
  }
}
