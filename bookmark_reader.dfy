/** Reads at bit positions, as the bookmark decoder addresses its data.

    Positions count bits from the start of the data, the most significant
    bit of each byte first. A multi-byte read at any bit position takes the
    consecutive 8-bit groups found there and combines them least significant
    first (little-endian). At a position that is a multiple of 8 these are
    the plain byte reads of the Bytes module. */
module BookmarkReader {
  import opened Bytes

  predicate HasBits(data: seq<byte>, p: nat, n: nat) {
    p + n <= |data| * 8
  }

  /** The high byte of the 16-bit word hi:lo shifted left by r bits, one bit at a time. */
  function ShiftIn(hi: byte, lo: byte, r: nat): byte
    decreases r
  {
    if r == 0 then hi
    else ShiftIn((hi as int * 2) % 0x100 + lo as int / 0x80, (lo as int * 2) % 0x100, r - 1)
  }

  /** The 8 bits starting p bits into byte q: whole bytes are skipped one
      at a time, and within a byte the group spans bytes q and q + 1. */
  function ByteFrom(data: seq<byte>, q: nat, p: nat): byte
    requires 8 * q + p + 8 <= 8 * |data|
    decreases p
  {
    if p >= 8 then ByteFrom(data, q + 1, p - 8)
    else if p == 0 then data[q]
    else ShiftIn(data[q], data[q + 1], p)
  }

  /** The 8 bits starting at bit p. */
  function ByteAt(data: seq<byte>, p: nat): byte
    requires HasBits(data, p, 8)
  {
    ByteFrom(data, 0, p)
  }

  function U8At(data: seq<byte>, p: nat): (v: nat)
    requires HasBits(data, p, 8)
    ensures v < 0x100
  {
    ByteAt(data, p)
  }

  function U16At(data: seq<byte>, p: nat): (v: nat)
    requires HasBits(data, p, 16)
    ensures v < 0x1_0000
  {
    ByteAt(data, p) + 0x100 * ByteAt(data, p + 8)
  }

  function U32At(data: seq<byte>, p: nat): (v: nat)
    requires HasBits(data, p, 32)
    ensures v < Two32
  {
    U16At(data, p) + 0x1_0000 * U16At(data, p + 16)
  }

  function U64At(data: seq<byte>, p: nat): (v: nat)
    requires HasBits(data, p, 64)
    ensures v < Two64
  {
    U32At(data, p) + Two32 * U32At(data, p + 32)
  }

  /** The two's-complement reading of an unsigned value below `full`, where
      `half` is half of `full`. */
  function Signed(v: nat, half: nat, full: nat): (s: int)
    requires full == 2 * half && v < full
    ensures -(half as int) <= s < half
    ensures v < half ==> s == v
    ensures v >= half ==> s == v - full
  {
    if v < half then v else v - full
  }

  /** n consecutive 8-bit groups from bit p. */
  function BytesAt(data: seq<byte>, p: nat, n: nat): (s: seq<byte>)
    requires HasBits(data, p, 8 * n)
    ensures |s| == n
    decreases n
  {
    if n == 0 then [] else [ByteAt(data, p)] + BytesAt(data, p + 8, n - 1)
  }

  /** Whole bytes of the position move the read to a later byte. */
  lemma {:induction false} ByteFromSkip(data: seq<byte>, q: nat, k: nat, r: nat)
    requires r < 8 && 8 * (q + k) + r + 8 <= 8 * |data|
    ensures ByteFrom(data, q, 8 * k + r) == ByteFrom(data, q + k, r)
    decreases k
  {
    if k > 0 {
      ByteFromSkip(data, q + 1, k - 1, r);
    }
  }

  /** At a byte boundary the 8 bits read are the stored byte. */
  lemma ByteAtAligned(data: seq<byte>, q: nat)
    requires q < |data|
    ensures ByteAt(data, 8 * q) == data[q]
  {
    ByteFromSkip(data, 0, q, 0);
  }

  /** At a byte boundary a 4-byte read is the plain little-endian read. */
  lemma AlignedU32(data: seq<byte>, q: nat)
    requires q + 4 <= |data|
    ensures U32At(data, 8 * q) == U32(data, q)
  {
    ByteAtAligned(data, q);
    ByteAtAligned(data, q + 1);
    ByteAtAligned(data, q + 2);
    ByteAtAligned(data, q + 3);
  }

  /** At a byte boundary n bytes are read verbatim. */
  lemma {:induction false} AlignedBytes(data: seq<byte>, q: nat, n: nat)
    requires q + n <= |data|
    ensures BytesAt(data, 8 * q, n) == data[q .. q + n]
    decreases n
  {
    if n > 0 {
      ByteAtAligned(data, q);
      AlignedBytes(data, q + 1, n - 1);
    }
  }

  /** Off a byte boundary each byte read straddles two stored bytes: one bit
      into byte q it is the low 7 bits of byte q followed by the top bit of
      byte q + 1. */
  lemma StraddlingByte(data: seq<byte>, q: nat)
    requires q + 1 < |data|
    ensures ByteAt(data, 8 * q + 1) == (data[q] % 0x80) * 2 + data[q + 1] / 0x80
  {
    ByteFromSkip(data, 0, q, 1);
    var x: int := data[q];
    if x < 0x80 {
      assert (x * 2) % 0x100 == x * 2 && x % 0x80 == x;
    } else {
      assert (x * 2) % 0x100 == x * 2 - 0x100 && x % 0x80 == x - 0x80;
    }
  }
}
