/** Little-endian reads from an immutable byte sequence, at byte positions. */
module Bytes {

  type byte = b: int | 0 <= b < 0x100

  const Two31: nat := 0x8000_0000
  const Two32: nat := 0x1_0000_0000
  const Two63: nat := 0x8000_0000_0000_0000
  const Two64: nat := 0x1_0000_0000_0000_0000

  function U16(s: seq<byte>, p: nat): (v: nat)
    requires p + 2 <= |s|
    ensures v < 0x1_0000
  {
    s[p] as int + 0x100 * (s[p + 1] as int)
  }

  function U32(s: seq<byte>, p: nat): (v: nat)
    requires p + 4 <= |s|
    ensures v < Two32
  {
    U16(s, p) + 0x1_0000 * U16(s, p + 2)
  }

  function U64(s: seq<byte>, p: nat): (v: nat)
    requires p + 8 <= |s|
    ensures v < Two64
  {
    U32(s, p) + Two32 * U32(s, p + 4)
  }

  /** A 4-character tag read as text; each byte becomes the character with the
      same code (exact for ASCII tags). */
  function Tag(s: seq<byte>, p: nat): (t: string)
    requires p + 4 <= |s|
    ensures |t| == 4
    ensures forall i :: 0 <= i < 4 ==> t[i] as int == s[p + i]
  {
    [s[p] as char, s[p + 1] as char, s[p + 2] as char, s[p + 3] as char]
  }

  /** Go's int64(x) conversion of an unsigned value, and int64 wrap-around of
      an arithmetic result: x taken modulo 2^64 into the signed range. */
  function ToInt64(x: int): (r: int)
    ensures -(Two63 as int) <= r < Two63
    ensures 0 <= x < Two63 ==> r == x
  {
    var m := x % Two64;
    if m < Two63 then m else m - Two64
  }

  /** Reads depend only on the bytes they cover. */
  lemma SameBytesSameReads(a: seq<byte>, b: seq<byte>, p: nat)
    requires p + 8 <= |a| && p + 8 <= |b|
    requires forall k :: p <= k < p + 8 ==> a[k] == b[k]
    ensures U64(a, p) == U64(b, p)
    ensures U32(a, p) == U32(b, p) && U32(a, p + 4) == U32(b, p + 4)
  {
    assert a[p] == b[p] && a[p + 1] == b[p + 1] && a[p + 2] == b[p + 2] && a[p + 3] == b[p + 3];
    assert a[p + 4] == b[p + 4] && a[p + 5] == b[p + 5] && a[p + 6] == b[p + 6] && a[p + 7] == b[p + 7];
  }
}
