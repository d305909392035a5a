/**
 * The pieces of Java's hashing that `ServerRef.hashCode` relies on:
 * 32-bit wrap-around, `Boolean.hashCode`, `String.hashCode` (over UTF-16
 * code units) and `Objects.hash` (that is, `Arrays.hashCode`).
 */
module JavaHash {
  import opened Resp

  const Two32: int := 0x1_0000_0000

  /** Java `int` arithmetic: the result modulo 2^32, read as a signed value. */
  function Wrap(x: int): (r: Int32)
    ensures (x - r) % Two32 == 0
  {
    (x - MinInt) % Two32 + MinInt
  }

  /** Two values wrap to the same `int` exactly when they agree modulo 2^32. */
  lemma WrapEqual(x: int, y: int)
    ensures Wrap(x) == Wrap(y) <==> (x - y) % Two32 == 0
  {
    var q := (x - MinInt) / Two32;
    var p := (y - MinInt) / Two32;
    assert x - MinInt == q * Two32 + (x - MinInt) % Two32;
    assert y - MinInt == p * Two32 + (y - MinInt) % Two32;
    if (x - y) % Two32 == 0 {
      var k := (x - y) / Two32;
      assert x - MinInt == (y - MinInt) + k * Two32;
      ModShift(y - MinInt, k);
    }
  }

  /** A value already in range is left alone. */
  lemma WrapInRange(x: int)
    requires MinInt <= x <= MaxInt
    ensures Wrap(x) == x
  {
  }

  lemma ModShift(a: int, k: int)
    ensures (a + k * Two32) % Two32 == a % Two32
  {
  }

  function BooleanHash(b: bool): Int32
  {
    if b then 1231 else 1237
  }

  /** The UTF-16 code units of one character: a surrogate pair above U+FFFF. */
  function Utf16(c: char): (u: seq<int>)
    ensures 1 <= |u| <= 2 && forall i :: 0 <= i < |u| ==> 0 <= u[i] < 0x1_0000
  {
    if c as int < 0x1_0000 then [c as int]
    else [0xD800 + (c as int - 0x1_0000) / 0x400, 0xDC00 + (c as int - 0x1_0000) % 0x400]
  }

  function Utf16String(s: string): seq<int>
  {
    if |s| == 0 then [] else Utf16String(s[..|s| - 1]) + Utf16(s[|s| - 1])
  }

  /** `h = 31 * h + unit` over the code units, from 0. */
  function HashUnits(u: seq<int>): Int32
  {
    if |u| == 0 then 0 else Wrap(31 * HashUnits(u[..|u| - 1]) + u[|u| - 1])
  }

  function StringHash(s: string): Int32
  {
    HashUnits(Utf16String(s))
  }

  /** `Arrays.hashCode`: `r = 31 * r + h` over the element hashes, from 1. */
  function ObjectsHash(hs: seq<Int32>): Int32
  {
    if |hs| == 0 then 1 else Wrap(31 * ObjectsHash(hs[..|hs| - 1]) + hs[|hs| - 1])
  }
}
