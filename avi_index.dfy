/** The three AVI index structures read from chunk payloads: the OpenDML
    standard index (ix## chunks and the targets of a super index, decoded by
    aviDecodeChunkIndex), the OpenDML super index (indx) and the legacy flat
    index (idx1). Offsets and sizes in the payloads are byte counts; every
    range built from them is in bits. */
module AviIndex {
  import opened Wrappers
  import opened Bytes
  import opened AviChunkId

  /** A range of the file, start and length in bits (ranges.Range). */
  datatype Range = Range(start: int, len: int)

  datatype AviError =
    | ShortRead                    // a field read ran past the end of the data
    | WrongRiffType(found: string) // the outer RIFF form type is not "AVI "
    | RangeOutOfBounds             // a range outside the file was followed

  /** longs_per_entry, index_subtype, index_type, entries_in_use, chunk_id,
      a 64-bit base (or reserved) field and one 32-bit unused field. */
  const IndexHeaderSize := 24
  const StdIndexEntrySize := 8
  const SuperIndexEntrySize := 16
  const Idx1EntrySize := 16

  /** size_keyframe & 0x7fffffff. */
  function EntrySize(sizeKeyFrame: nat): nat {
    sizeKeyFrame % Two31
  }

  /** key_frame is set when bit 31 of size_keyframe is clear. */
  predicate IsKeyFrame(sizeKeyFrame: nat) {
    (sizeKeyFrame / Two31) % 2 == 0
  }

  lemma SizeKeyFrameSplit(sizeKeyFrame: nat)
    requires sizeKeyFrame < Two32
    ensures EntrySize(sizeKeyFrame) < Two31
    ensures sizeKeyFrame == EntrySize(sizeKeyFrame) + if IsKeyFrame(sizeKeyFrame) then 0 else Two31
    ensures IsKeyFrame(sizeKeyFrame) <==> sizeKeyFrame < Two31
  {
  }

  // ---------------------------------------------------------------------------
  // Standard index (aviDecodeChunkIndex)

  /** Entry i of a standard index: the bit range (base + offset) * 8 computed
      in int64 as the source does, and the size with the key-frame bit masked off. */
  function StdIndexEntry(buf: seq<byte>, base: nat, i: nat): Range
    requires IndexHeaderSize + StdIndexEntrySize * (i + 1) <= |buf|
  {
    var offset := U32(buf, IndexHeaderSize + StdIndexEntrySize * i);
    var sizeKeyFrame := U32(buf, IndexHeaderSize + StdIndexEntrySize * i + 4);
    Range(ToInt64(ToInt64(ToInt64(base) * 8) + offset * 8), EntrySize(sizeKeyFrame) * 8)
  }

  function StdIndexEntries(buf: seq<byte>, base: nat, n: nat): seq<Range>
    requires IndexHeaderSize + StdIndexEntrySize * n <= |buf|
    decreases n
  {
    if n == 0 then [] else StdIndexEntries(buf, base, n - 1) + [StdIndexEntry(buf, base, n - 1)]
  }

  /** The ranges a standard index lists, or ShortRead when the payload ends
      before its header or before its last entry in use. */
  function ChunkIndex(buf: seq<byte>): Result<seq<Range>, AviError> {
    if |buf| < IndexHeaderSize then Err(ShortRead)
    else
      var n := U32(buf, 4);
      if |buf| < IndexHeaderSize + StdIndexEntrySize * n then Err(ShortRead)
      else Ok(StdIndexEntries(buf, U64(buf, 12), n))
  }

  lemma {:induction false} StdIndexEntriesAt(buf: seq<byte>, base: nat, n: nat)
    requires IndexHeaderSize + StdIndexEntrySize * n <= |buf|
    ensures |StdIndexEntries(buf, base, n)| == n
    ensures forall i :: 0 <= i < n ==> StdIndexEntries(buf, base, n)[i] == StdIndexEntry(buf, base, i)
  {
    if n > 0 {
      StdIndexEntriesAt(buf, base, n - 1);
    }
  }

  /** A standard index yields exactly entries_in_use ranges, in entry order:
      range i starts at (base_offset + offset_i) * 8 (when that does not
      overflow int64) and is (size_keyframe_i & 0x7fffffff) * 8 long. */
  lemma ChunkIndexShape(buf: seq<byte>)
    ensures ChunkIndex(buf).Ok? <==>
      |buf| >= IndexHeaderSize && |buf| >= IndexHeaderSize + StdIndexEntrySize * U32(buf, 4)
    ensures ChunkIndex(buf).Ok? ==>
      var rs, n, base := ChunkIndex(buf).value, U32(buf, 4), U64(buf, 12);
      && |rs| == n
      && forall i :: 0 <= i < n ==>
        var offset := U32(buf, IndexHeaderSize + StdIndexEntrySize * i);
        var sizeKeyFrame := U32(buf, IndexHeaderSize + StdIndexEntrySize * i + 4);
        && rs[i].len == EntrySize(sizeKeyFrame) * 8
        && (base + offset < 0x1000_0000_0000_0000 ==> rs[i].start == (base + offset) * 8)
  {
    if ChunkIndex(buf).Ok? {
      StdIndexEntriesAt(buf, U64(buf, 12), U32(buf, 4));
    }
  }

  method DecodeChunkIndex(buf: seq<byte>) returns (r: Result<seq<Range>, AviError>)
    ensures r == ChunkIndex(buf)
  {
    if |buf| < IndexHeaderSize {
      return Err(ShortRead);
    }
    var n := U32(buf, 4);
    var baseOffset := ToInt64(U64(buf, 12));
    var rs: seq<Range> := [];
    var i := 0;
    while i < n
      invariant 0 <= i <= n
      invariant IndexHeaderSize + StdIndexEntrySize * i <= |buf|
      invariant rs == StdIndexEntries(buf, U64(buf, 12), i)
    {
      var p := IndexHeaderSize + StdIndexEntrySize * i;
      if |buf| < p + StdIndexEntrySize {
        return Err(ShortRead);
      }
      var offset := U32(buf, p);
      var sizeKeyFrame := U32(buf, p + 4);
      rs := rs + [Range(ToInt64(ToInt64(baseOffset * 8) + offset * 8), EntrySize(sizeKeyFrame) * 8)];
      i := i + 1;
    }
    return Ok(rs);
  }

  // ---------------------------------------------------------------------------
  // Super index (indx)

  /** Entry i of a super index: where the sub-index chunk is and how long it
      is, both turned into bits; the header's base field plays no part. */
  function SuperIndexEntry(buf: seq<byte>, i: nat): Range
    requires IndexHeaderSize + SuperIndexEntrySize * (i + 1) <= |buf|
  {
    var p := IndexHeaderSize + SuperIndexEntrySize * i;
    Range(ToInt64(ToInt64(U64(buf, p)) * 8), U32(buf, p + 8) * 8)
  }

  function SuperIndexEntries(buf: seq<byte>, n: nat): seq<Range>
    requires IndexHeaderSize + SuperIndexEntrySize * n <= |buf|
    decreases n
  {
    if n == 0 then [] else SuperIndexEntries(buf, n - 1) + [SuperIndexEntry(buf, n - 1)]
  }

  function SuperIndex(buf: seq<byte>): Result<seq<Range>, AviError> {
    if |buf| < IndexHeaderSize then Err(ShortRead)
    else
      var n := U32(buf, 4);
      if |buf| < IndexHeaderSize + SuperIndexEntrySize * n then Err(ShortRead)
      else Ok(SuperIndexEntries(buf, n))
  }

  lemma {:induction false} SuperIndexEntriesAt(buf: seq<byte>, n: nat)
    requires IndexHeaderSize + SuperIndexEntrySize * n <= |buf|
    ensures |SuperIndexEntries(buf, n)| == n
    ensures forall i :: 0 <= i < n ==> SuperIndexEntries(buf, n)[i] == SuperIndexEntry(buf, i)
  {
    if n > 0 {
      SuperIndexEntriesAt(buf, n - 1);
    }
  }

  /** A super index yields entries_in_use ranges in entry order: range i is
      (offset_i * 8, size_i * 8), with offset_i taken from the entry alone. */
  lemma SuperIndexShape(buf: seq<byte>)
    ensures SuperIndex(buf).Ok? <==>
      |buf| >= IndexHeaderSize && |buf| >= IndexHeaderSize + SuperIndexEntrySize * U32(buf, 4)
    ensures SuperIndex(buf).Ok? ==>
      var rs, n := SuperIndex(buf).value, U32(buf, 4);
      && |rs| == n
      && forall i :: 0 <= i < n ==>
        var offset := U64(buf, IndexHeaderSize + SuperIndexEntrySize * i);
        && rs[i].len == U32(buf, IndexHeaderSize + SuperIndexEntrySize * i + 8) * 8
        && (offset < 0x1000_0000_0000_0000 ==> rs[i].start == offset * 8)
  {
    if SuperIndex(buf).Ok? {
      SuperIndexEntriesAt(buf, U32(buf, 4));
    }
  }

  /** Entries read from two payloads that agree outside the base field agree. */
  lemma {:induction false} SuperIndexEntriesAgree(buf: seq<byte>, other: seq<byte>, n: nat)
    requires |buf| == |other| && IndexHeaderSize + SuperIndexEntrySize * n <= |buf|
    requires forall k :: 0 <= k < |buf| && !(12 <= k < 20) ==> buf[k] == other[k]
    ensures SuperIndexEntries(buf, n) == SuperIndexEntries(other, n)
    decreases n
  {
    if n > 0 {
      SuperIndexEntriesAgree(buf, other, n - 1);
      SuperIndexEntryAgree(buf, other, n - 1);
    }
  }

  lemma SuperIndexEntryAgree(buf: seq<byte>, other: seq<byte>, i: nat)
    requires |buf| == |other| && IndexHeaderSize + SuperIndexEntrySize * (i + 1) <= |buf|
    requires forall k :: 0 <= k < |buf| && !(12 <= k < 20) ==> buf[k] == other[k]
    ensures SuperIndexEntry(buf, i) == SuperIndexEntry(other, i)
  {
    var p := IndexHeaderSize + SuperIndexEntrySize * i;
    SameBytesSameReads(buf, other, p);
    SameBytesSameReads(buf, other, p + 8);
  }

  /** The 64-bit base field of a super index (bytes 12 to 20) is read and ignored. */
  lemma SuperIndexIgnoresBase(buf: seq<byte>, other: seq<byte>)
    requires |buf| == |other|
    requires forall k :: 0 <= k < |buf| && !(12 <= k < 20) ==> buf[k] == other[k]
    ensures SuperIndex(buf) == SuperIndex(other)
  {
    if |buf| >= IndexHeaderSize {
      SameBytesSameReads(buf, other, 0);
      var n := U32(buf, 4);
      if |buf| >= IndexHeaderSize + SuperIndexEntrySize * n {
        SuperIndexEntriesAgree(buf, other, n);
      }
    }
  }

  method DecodeSuperIndex(buf: seq<byte>) returns (r: Result<seq<Range>, AviError>)
    ensures r == SuperIndex(buf)
  {
    if |buf| < IndexHeaderSize {
      return Err(ShortRead);
    }
    var n := U32(buf, 4);
    var rs: seq<Range> := [];
    var i := 0;
    while i < n
      invariant 0 <= i <= n
      invariant IndexHeaderSize + SuperIndexEntrySize * i <= |buf|
      invariant rs == SuperIndexEntries(buf, i)
    {
      var p := IndexHeaderSize + SuperIndexEntrySize * i;
      if |buf| < p + SuperIndexEntrySize {
        return Err(ShortRead);
      }
      var offset := ToInt64(U64(buf, p));
      var size := U32(buf, p + 8);
      rs := rs + [Range(ToInt64(offset * 8), size * 8)];
      i := i + 1;
    }
    return Ok(rs);
  }

  // ---------------------------------------------------------------------------
  // Legacy flat index (idx1)

  /** One idx1 entry (idx1Sample): offset and size already in bits, and the
      stream kind and number from the entry's tag. */
  datatype Idx1Sample = Idx1Sample(offset: int, size: int, streamNr: nat, streamType: string)

  /** The 16-byte entry at byte p: tag, flags, offset, length. */
  function Idx1Entry(buf: seq<byte>, p: nat): Idx1Sample
    requires p + Idx1EntrySize <= |buf|
  {
    var id := DecorateStreamID(Tag(buf, p));
    Idx1Sample(U32(buf, p + 8) * 8, U32(buf, p + 12) * 8, id.1, id.0)
  }

  /** The entries from byte p on, while at least one whole entry remains. */
  function Idx1From(buf: seq<byte>, p: nat): seq<Idx1Sample>
    requires p <= |buf|
    decreases |buf| - p
  {
    if |buf| - p < Idx1EntrySize then []
    else [Idx1Entry(buf, p)] + Idx1From(buf, p + Idx1EntrySize)
  }

  function Idx1Entries(buf: seq<byte>): seq<Idx1Sample> {
    Idx1From(buf, 0)
  }

  /** Every entry read is a whole 16 bytes of the payload... */
  lemma {:induction false} Idx1FromFits(buf: seq<byte>, p: nat)
    requires p <= |buf|
    ensures Idx1EntrySize * |Idx1From(buf, p)| <= |buf| - p
    decreases |buf| - p
  {
    Idx1FromLengthStep(buf, p);
    if |buf| - p >= Idx1EntrySize {
      Idx1FromFits(buf, p + Idx1EntrySize);
    }
  }

  /** ... and less than one entry's worth is left over. */
  lemma {:induction false} Idx1FromExhausts(buf: seq<byte>, p: nat)
    requires p <= |buf|
    ensures |buf| - p < Idx1EntrySize * (|Idx1From(buf, p)| + 1)
    decreases |buf| - p
  {
    Idx1FromLengthStep(buf, p);
    if |buf| - p >= Idx1EntrySize {
      Idx1FromExhausts(buf, p + Idx1EntrySize);
    }
  }

  lemma Idx1FromLengthStep(buf: seq<byte>, p: nat)
    requires p <= |buf|
    ensures |Idx1From(buf, p)| == if |buf| - p < Idx1EntrySize then 0 else 1 + |Idx1From(buf, p + Idx1EntrySize)|
  {
  }

  lemma {:induction false} Idx1FromAt(buf: seq<byte>, p: nat, i: nat)
    requires p + Idx1EntrySize * (i + 1) <= |buf|
    ensures i < |Idx1From(buf, p)|
    ensures Idx1From(buf, p)[i] == Idx1Entry(buf, p + Idx1EntrySize * i)
    decreases i
  {
    if i > 0 {
      Idx1FromAt(buf, p + Idx1EntrySize, i - 1);
      assert p + Idx1EntrySize + Idx1EntrySize * (i - 1) == p + Idx1EntrySize * i;
      assert Idx1From(buf, p)[i] == Idx1From(buf, p + Idx1EntrySize)[i - 1];
    } else {
      assert p + Idx1EntrySize * i == p;
    }
  }

  /** idx1 is read as |payload| / 16 whole entries, in file order; trailing
      bytes shorter than an entry are left alone. Entry i holds offset and
      length times 8 and the tag's stream number, which is 0 for a tag that is
      not stream payload. */
  lemma Idx1Shape(buf: seq<byte>)
    ensures |Idx1Entries(buf)| == |buf| / Idx1EntrySize
    ensures forall i :: 0 <= i < |buf| / Idx1EntrySize ==>
      var p := Idx1EntrySize * i;
      && p + Idx1EntrySize <= |buf|
      && Idx1Entries(buf)[i].offset == U32(buf, p + 8) * 8
      && Idx1Entries(buf)[i].size == U32(buf, p + 12) * 8
      && (Idx1Entries(buf)[i].streamType, Idx1Entries(buf)[i].streamNr) == DecorateStreamID(Tag(buf, p))
  {
    Idx1FromFits(buf, 0);
    Idx1FromExhausts(buf, 0);
    forall i | 0 <= i < |buf| / Idx1EntrySize
      ensures Idx1Entries(buf)[i] == Idx1Entry(buf, Idx1EntrySize * i)
    {
      Idx1FromAt(buf, 0, i);
    }
  }

  method DecodeIdx1(buf: seq<byte>) returns (samples: seq<Idx1Sample>)
    ensures samples == Idx1Entries(buf)
  {
    samples := [];
    var pos := 0;
    while |buf| - pos >= Idx1EntrySize
      invariant 0 <= pos <= |buf|
      invariant samples + Idx1From(buf, pos) == Idx1Entries(buf)
      decreases |buf| - pos
    {
      var id := DecorateStreamID(Tag(buf, pos));
      var offset := U32(buf, pos + 8);
      var length := U32(buf, pos + 12);
      samples := samples + [Idx1Sample(offset * 8, length * 8, id.1, id.0)];
      pos := pos + Idx1EntrySize;
    }
  }
}
