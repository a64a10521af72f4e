/** Apple bookmark data (bookmarkDecode): the 48-byte header, the chain of
    tables of contents (TOCs) and the entries they list.

    The header ends with the offset of the first TOC. Each TOC header names
    the offset of the next one, 0 marking the last. After reading each TOC
    header the decoder decodes the entries of every TOC collected so far,
    so the i-th entry list holds the entries of TOCs 0..i in order. A TOC
    chain can loop back on itself, so the walk is bounded by a budget of
    TOCs; records are bounded by the depth budget of BookmarkRecord. */
module Bookmark {
  import opened Wrappers
  import opened Bytes
  import opened BookmarkReader
  import opened BookmarkRecord

  const TocMagic: nat := 0xFFFF_FFFE
  /** A TOC header is five 4-byte fields; its entries follow it. */
  const TocHeaderBits: nat := 160
  /** A TOC entry is a key, a record offset and a reserved field. */
  const TocEntryBits: nat := 96
  /** Offset of first_toc_offset, which closes the header. */
  const FirstTocField: nat := 48

  datatype BookmarkHeader = BookmarkHeader(magic: string, totalSize: nat, unknown: nat, firstTocOffset: nat)

  datatype TocHeader = TocHeader(tocSize: nat, identifier: nat, nextTocOffset: nat, numEntries: nat, entryArrayOffset: nat)

  datatype TocEntry = TocEntry(key: nat, keyString: Option<Record>, recordOffset: nat, reserved: nat, record: Record)

  /** One turn of the TOC loop: the TOC header read and the entries of all
      TOCs read so far. */
  datatype TocStep = TocStep(header: TocHeader, entries: seq<TocEntry>)

  datatype Bookmark = Bookmark(header: BookmarkHeader, steps: seq<TocStep>)

  predicate IsBookmarkMagic(m: string) {
    m == "book" || m == "alis"
  }

  /** The header, checked in field order: the magic, then header_size, then
      the reserved bytes and first_toc_offset. */
  function DecodeHeader(data: seq<byte>): Result<BookmarkHeader, BookmarkError> {
    if |data| < 4 then Err(ShortRead)
    else if !IsBookmarkMagic(Tag(data, 0)) then Err(BadMagic(Tag(data, 0)))
    else if |data| < 16 then Err(ShortRead)
    else if U32(data, 12) != HeaderEnd then Err(BadHeaderSize(U32(data, 12)))
    else if |data| < FirstTocField + 4 then Err(ShortRead)
    else Ok(BookmarkHeader(Tag(data, 0), U32(data, 4), U32(data, 8), U32(data, FirstTocField)))
  }

  /** The TOC header at bit position t. */
  function ReadTocHeader(data: seq<byte>, t: nat): Result<TocHeader, BookmarkError> {
    var tocSize :- ReadU32(data, t);
    var magic :- ReadU32(data, t + 32);
    if magic != TocMagic then Err(BadTocMagic(magic))
    else
      var identifier :- ReadU32(data, t + 64);
      var next :- ReadU32(data, t + 96);
      var numEntries :- ReadU32(data, t + 128);
      Ok(TocHeader(tocSize, identifier, next, numEntries, t + TocHeaderBits))
  }

  /** The TOC entry at bit position p. A key with its top bit set also names,
      in its low 31 bits, the offset of a string record. */
  function ReadEntry(data: seq<byte>, p: nat, fuel: nat): Result<TocEntry, BookmarkError> {
    var key :- ReadU32(data, p);
    var keyString :- if key >= Two31 then
        var s :- DecodeRecord(data, CalcOffset(key - Two31), fuel); Ok(Some(s))
      else Ok(None);
    var offset :- ReadU32(data, p + 32);
    var reserved :- ReadU32(data, p + 64);
    var record :- DecodeRecord(data, CalcOffset(offset), fuel);
    Ok(TocEntry(key, keyString, CalcOffset(offset), reserved, record))
  }

  /** Where entry k of a TOC is read: entries follow one another from the
      end of the TOC header. */
  function EntryPos(hdr: TocHeader, k: nat): nat {
    hdr.entryArrayOffset + TocEntryBits * k
  }

  /** Entries k.. of a TOC, in order. */
  function EntriesFrom(data: seq<byte>, hdr: TocHeader, k: nat, fuel: nat): Result<seq<TocEntry>, BookmarkError>
    requires k <= hdr.numEntries
    decreases hdr.numEntries - k
  {
    if k == hdr.numEntries then Ok([])
    else
      var e :- ReadEntry(data, EntryPos(hdr, k), fuel);
      var rest :- EntriesFrom(data, hdr, k + 1, fuel);
      Ok([e] + rest)
  }

  function TocEntries(data: seq<byte>, hdr: TocHeader, fuel: nat): Result<seq<TocEntry>, BookmarkError> {
    EntriesFrom(data, hdr, 0, fuel)
  }

  /** The entries of several TOCs, one after the other. */
  function EntriesOfAll(data: seq<byte>, hdrs: seq<TocHeader>, fuel: nat): Result<seq<TocEntry>, BookmarkError>
    decreases |hdrs|
  {
    if |hdrs| == 0 then Ok([])
    else
      var es :- TocEntries(data, hdrs[0], fuel);
      var rest :- EntriesOfAll(data, hdrs[1..], fuel);
      Ok(es + rest)
  }

  function Headers(steps: seq<TocStep>): seq<TocHeader> {
    seq(|steps|, k requires 0 <= k < |steps| => steps[k].header)
  }

  /** The TOC loop from the TOC at bit position t, with the headers `hdrs`
      already collected; it stops when t is the header end (offset 0). */
  function DecodeFrom(data: seq<byte>, t: nat, hdrs: seq<TocHeader>, budget: nat, fuel: nat): Result<seq<TocStep>, BookmarkError>
    decreases budget
  {
    if t == HeaderEndBitPos then Ok([])
    else if budget == 0 then Err(OutOfFuel)
    else
      var hdr :- ReadTocHeader(data, t);
      var all := hdrs + [hdr];
      var es :- EntriesOfAll(data, all, fuel);
      var rest :- DecodeFrom(data, CalcOffset(hdr.nextTocOffset), all, budget - 1, fuel);
      Ok([TocStep(hdr, es)] + rest)
  }

  /** Bookmark data, walking at most `maxTocs` TOCs and nesting records at
      most `fuel` deep. */
  function DecodeBookmarkData(data: seq<byte>, maxTocs: nat, fuel: nat): Result<Bookmark, BookmarkError> {
    var header :- DecodeHeader(data);
    var steps :- DecodeFrom(data, CalcOffset(header.firstTocOffset), [], maxTocs, fuel);
    Ok(Bookmark(header, steps))
  }

  /** The bit position of the i-th TOC visited from position t: t itself,
      then wherever the previous TOC's next offset leads. */
  function TocPosition(t: nat, steps: seq<TocStep>, i: nat): nat
    requires i <= |steps|
  {
    if i == 0 then t else CalcOffset(steps[i - 1].header.nextTocOffset)
  }

  // ---------------------------------------------------------------------------
  // Properties
  // ---------------------------------------------------------------------------

  /** The header decodes exactly when the data holds the 52 header bytes, the
      magic is "book" or "alis" and header_size is 48; the first TOC offset
      is the 4 bytes at 48. */
  lemma HeaderChecks(data: seq<byte>)
    ensures DecodeHeader(data).Ok? <==>
      |data| >= 52 && IsBookmarkMagic(Tag(data, 0)) && U32(data, 12) == 48
    ensures DecodeHeader(data).Ok? ==>
      DecodeHeader(data).value.magic == Tag(data, 0) && DecodeHeader(data).value.firstTocOffset == U32(data, 48)
    ensures |data| >= 4 && !IsBookmarkMagic(Tag(data, 0)) ==> DecodeHeader(data) == Err(BadMagic(Tag(data, 0)))
    ensures |data| >= 16 && IsBookmarkMagic(Tag(data, 0)) && U32(data, 12) != 48 ==>
      DecodeHeader(data) == Err(BadHeaderSize(U32(data, 12)))
    ensures DecodeHeader(data).Err? && !DecodeHeader(data).error.BadMagic? && !DecodeHeader(data).error.BadHeaderSize? ==>
      DecodeHeader(data) == Err(ShortRead)
  {
  }

  /** A TOC header decodes exactly when its 20 bytes are there and its magic
      is 0xfffffffe; its entries start right after it. */
  lemma TocHeaderShape(data: seq<byte>, t: nat)
    ensures ReadTocHeader(data, t).Ok? <==> HasBits(data, t, TocHeaderBits) && U32At(data, t + 32) == TocMagic
    ensures ReadTocHeader(data, t).Ok? ==>
      var h := ReadTocHeader(data, t).value;
      && h.tocSize == U32At(data, t)
      && h.nextTocOffset == U32At(data, t + 96)
      && h.numEntries == U32At(data, t + 128)
      && h.entryArrayOffset == t + TocHeaderBits
  {
    if HasBits(data, t, 64) && U32At(data, t + 32) == TocMagic && !HasBits(data, t, TocHeaderBits) {
      assert ReadU32(data, t + 128).Err?;
    }
  }

  /** An entry has a key string exactly when the key's top bit is set, read
      from the offset in the key's low 31 bits; its record is read from the
      offset that follows the key. */
  lemma EntryShape(data: seq<byte>, p: nat, fuel: nat)
    requires ReadEntry(data, p, fuel).Ok?
    ensures var e := ReadEntry(data, p, fuel).value;
      && HasBits(data, p, TocEntryBits)
      && e.key == U32At(data, p)
      && (e.keyString.Some? <==> e.key >= Two31)
      && (e.keyString.Some? ==> DecodeRecord(data, CalcOffset(e.key - Two31), fuel) == Ok(e.keyString.value))
      && e.recordOffset == CalcOffset(U32At(data, p + 32))
      && DecodeRecord(data, e.recordOffset, fuel) == Ok(e.record)
  {
  }

  lemma {:induction false} EntriesFromAt(data: seq<byte>, hdr: TocHeader, k: nat, fuel: nat, j: nat)
    requires k <= j < hdr.numEntries
    requires EntriesFrom(data, hdr, k, fuel).Ok?
    ensures |EntriesFrom(data, hdr, k, fuel).value| == hdr.numEntries - k
    ensures ReadEntry(data, EntryPos(hdr, j), fuel) == Ok(EntriesFrom(data, hdr, k, fuel).value[j - k])
    decreases j - k
  {
    EntriesFromLength(data, hdr, k, fuel);
    EntriesFromStep(data, hdr, k, fuel);
    if k < j {
      EntriesFromAt(data, hdr, k + 1, fuel, j);
    }
  }

  lemma {:induction false} EntriesFromLength(data: seq<byte>, hdr: TocHeader, k: nat, fuel: nat)
    requires k <= hdr.numEntries
    requires EntriesFrom(data, hdr, k, fuel).Ok?
    ensures |EntriesFrom(data, hdr, k, fuel).value| == hdr.numEntries - k
    decreases hdr.numEntries - k
  {
    if k < hdr.numEntries {
      EntriesFromLength(data, hdr, k + 1, fuel);
    }
  }

  /** A TOC lists num_entries entries, the j-th one 12 bytes after the
      (j-1)-th. */
  lemma TocEntriesCount(data: seq<byte>, hdr: TocHeader, fuel: nat)
    requires TocEntries(data, hdr, fuel).Ok?
    ensures |TocEntries(data, hdr, fuel).value| == hdr.numEntries
    ensures forall j :: 0 <= j < hdr.numEntries ==>
      ReadEntry(data, EntryPos(hdr, j), fuel) == Ok(TocEntries(data, hdr, fuel).value[j])
  {
    EntriesFromLength(data, hdr, 0, fuel);
    forall j | 0 <= j < hdr.numEntries
      ensures ReadEntry(data, EntryPos(hdr, j), fuel) == Ok(TocEntries(data, hdr, fuel).value[j])
    {
      EntriesFromAt(data, hdr, 0, fuel, j);
    }
  }

  /** Collecting the entries of one more TOC appends that TOC's entries. */
  lemma {:induction false} EntriesOfAllAppend(data: seq<byte>, hdrs: seq<TocHeader>, h: TocHeader, fuel: nat)
    ensures EntriesOfAll(data, hdrs + [h], fuel).Ok? <==>
      EntriesOfAll(data, hdrs, fuel).Ok? && TocEntries(data, h, fuel).Ok?
    ensures EntriesOfAll(data, hdrs + [h], fuel).Ok? ==>
      EntriesOfAll(data, hdrs + [h], fuel).value == EntriesOfAll(data, hdrs, fuel).value + TocEntries(data, h, fuel).value
    decreases |hdrs|
  {
    if |hdrs| == 0 {
      assert [] + [h] == [h];
      assert [h][1..] == [];
      if TocEntries(data, h, fuel).Ok? {
        assert TocEntries(data, h, fuel).value + [] == TocEntries(data, h, fuel).value;
      }
    } else {
      assert (hdrs + [h])[0] == hdrs[0];
      assert (hdrs + [h])[1..] == hdrs[1..] + [h];
      EntriesOfAllAppend(data, hdrs[1..], h, fuel);
      if EntriesOfAll(data, hdrs + [h], fuel).Ok? {
        var e0 := TocEntries(data, hdrs[0], fuel).value;
        assert e0 + (EntriesOfAll(data, hdrs[1..], fuel).value + TocEntries(data, h, fuel).value)
          == (e0 + EntriesOfAll(data, hdrs[1..], fuel).value) + TocEntries(data, h, fuel).value;
      }
    }
  }

  /** One turn of the TOC loop away from the header end. */
  lemma DecodeFromStep(data: seq<byte>, t: nat, hdrs: seq<TocHeader>, budget: nat, fuel: nat)
    requires t != HeaderEndBitPos && DecodeFrom(data, t, hdrs, budget, fuel).Ok?
    ensures budget > 0 && ReadTocHeader(data, t).Ok?
    ensures var h := ReadTocHeader(data, t).value;
      && EntriesOfAll(data, hdrs + [h], fuel).Ok?
      && DecodeFrom(data, CalcOffset(h.nextTocOffset), hdrs + [h], budget - 1, fuel).Ok?
      && DecodeFrom(data, t, hdrs, budget, fuel).value
        == [TocStep(h, EntriesOfAll(data, hdrs + [h], fuel).value)]
          + DecodeFrom(data, CalcOffset(h.nextTocOffset), hdrs + [h], budget - 1, fuel).value
  {
  }

  lemma HeadersPrefix(hdrs: seq<TocHeader>, s: seq<TocStep>, i: nat)
    requires 0 < i < |s|
    ensures hdrs + Headers(s[..i + 1]) == (hdrs + [s[0].header]) + Headers(s[1..][..i])
  {
    var l, r := hdrs + Headers(s[..i + 1]), (hdrs + [s[0].header]) + Headers(s[1..][..i]);
    assert |l| == |r|;
    forall k | 0 <= k < |l|
      ensures l[k] == r[k]
    {
      if k > |hdrs| {
        assert r[k] == s[1..][..i][k - |hdrs| - 1].header;
      }
    }
  }

  lemma HeadersSnoc(s: seq<TocStep>, i: nat)
    requires i < |s|
    ensures [] + Headers(s[..i + 1]) == Headers(s[..i + 1]) == Headers(s[..i]) + [s[i].header]
    ensures [] + Headers(s[..i]) == Headers(s[..i])
    ensures i == 0 ==> Headers(s[..i]) == []
  {
  }

  /** The i-th turn of the TOC loop reads the TOC at the position the chain
      leads to, which is not the header end. */
  lemma {:induction false} ChainHeaderAt(data: seq<byte>, t: nat, hdrs: seq<TocHeader>, budget: nat, fuel: nat, i: nat)
    requires DecodeFrom(data, t, hdrs, budget, fuel).Ok?
    requires i < |DecodeFrom(data, t, hdrs, budget, fuel).value|
    ensures var s := DecodeFrom(data, t, hdrs, budget, fuel).value;
      && TocPosition(t, s, i) != HeaderEndBitPos
      && ReadTocHeader(data, TocPosition(t, s, i)) == Ok(s[i].header)
    decreases budget
  {
    var s := DecodeFrom(data, t, hdrs, budget, fuel).value;
    DecodeFromStep(data, t, hdrs, budget, fuel);
    var h := ReadTocHeader(data, t).value;
    var t' := CalcOffset(h.nextTocOffset);
    var rest := DecodeFrom(data, t', hdrs + [h], budget - 1, fuel).value;
    assert s[0].header == h && s[1..] == rest;
    if i > 0 {
      ChainHeaderAt(data, t', hdrs + [h], budget - 1, fuel, i - 1);
      assert rest[i - 1] == s[i];
      if i > 1 {
        assert rest[i - 2] == s[i - 1];
      }
      assert TocPosition(t', rest, i - 1) == TocPosition(t, s, i);
    }
  }

  /** The entries of the i-th turn of the TOC loop are those of all TOCs
      read so far. */
  lemma {:induction false} ChainEntriesAt(data: seq<byte>, t: nat, hdrs: seq<TocHeader>, budget: nat, fuel: nat, i: nat)
    requires DecodeFrom(data, t, hdrs, budget, fuel).Ok?
    requires i < |DecodeFrom(data, t, hdrs, budget, fuel).value|
    ensures var s := DecodeFrom(data, t, hdrs, budget, fuel).value;
      EntriesOfAll(data, hdrs + Headers(s[..i + 1]), fuel) == Ok(s[i].entries)
    decreases budget
  {
    var s := DecodeFrom(data, t, hdrs, budget, fuel).value;
    DecodeFromStep(data, t, hdrs, budget, fuel);
    var h := ReadTocHeader(data, t).value;
    var t' := CalcOffset(h.nextTocOffset);
    var rest := DecodeFrom(data, t', hdrs + [h], budget - 1, fuel).value;
    assert s[0].header == h && s[1..] == rest;
    if i == 0 {
      assert Headers(s[..1]) == [h];
    } else {
      ChainEntriesAt(data, t', hdrs + [h], budget - 1, fuel, i - 1);
      HeadersPrefix(hdrs, s, i);
    }
  }

  /** The TOC loop ends where the chain reaches the header end, that is at
      the first next offset of 0. */
  lemma {:induction false} ChainEnd(data: seq<byte>, t: nat, hdrs: seq<TocHeader>, budget: nat, fuel: nat)
    requires DecodeFrom(data, t, hdrs, budget, fuel).Ok?
    ensures var s := DecodeFrom(data, t, hdrs, budget, fuel).value;
      TocPosition(t, s, |s|) == HeaderEndBitPos
    decreases budget
  {
    if t != HeaderEndBitPos {
      var s := DecodeFrom(data, t, hdrs, budget, fuel).value;
      var h := ReadTocHeader(data, t).value;
      var t' := CalcOffset(h.nextTocOffset);
      var rest := DecodeFrom(data, t', hdrs + [h], budget - 1, fuel).value;
      assert s == [s[0]] + rest && s[0].header == h;
      ChainEnd(data, t', hdrs + [h], budget - 1, fuel);
      assert TocPosition(t', rest, |rest|) == TocPosition(t, s, |s|);
    }
  }

  /** The budget of TOCs only cuts the walk off: a walk that succeeds gives
      the same result with any larger budget. */
  lemma {:induction false} BudgetMonotone(data: seq<byte>, t: nat, hdrs: seq<TocHeader>, budget: nat, more: nat, fuel: nat)
    requires budget <= more && DecodeFrom(data, t, hdrs, budget, fuel).Ok?
    ensures DecodeFrom(data, t, hdrs, more, fuel) == DecodeFrom(data, t, hdrs, budget, fuel)
    decreases budget
  {
    if t != HeaderEndBitPos {
      var h := ReadTocHeader(data, t).value;
      BudgetMonotone(data, CalcOffset(h.nextTocOffset), hdrs + [h], budget - 1, more - 1, fuel);
    }
  }

  /** A TOC whose next offset leads back to itself never ends the walk: the
      decode fails whatever the budget. */
  lemma {:induction false} SelfLinkedTocFails(data: seq<byte>, t: nat, hdrs: seq<TocHeader>, budget: nat, fuel: nat)
    requires t != HeaderEndBitPos && ReadTocHeader(data, t).Ok?
    requires CalcOffset(ReadTocHeader(data, t).value.nextTocOffset) == t
    ensures DecodeFrom(data, t, hdrs, budget, fuel).Err?
    decreases budget
  {
    if budget > 0 {
      var h := ReadTocHeader(data, t).value;
      SelfLinkedTocFails(data, t, hdrs + [h], budget - 1, fuel);
    }
  }

  /** With a first TOC offset of 0 there is no TOC to walk. */
  lemma NoFirstToc(data: seq<byte>, maxTocs: nat, fuel: nat)
    requires DecodeHeader(data).Ok? && DecodeHeader(data).value.firstTocOffset == 0
    ensures DecodeBookmarkData(data, maxTocs, fuel) == Ok(Bookmark(DecodeHeader(data).value, []))
  {
  }

  /** The decoded TOCs form the chain from first_toc_offset: TOC i is read
      where TOC i - 1's next offset points, every next offset but the last
      is nonzero, the last one is 0, and the walk is empty exactly when the
      first offset is 0. */
  lemma BookmarkChain(data: seq<byte>, maxTocs: nat, fuel: nat)
    requires DecodeBookmarkData(data, maxTocs, fuel).Ok?
    ensures var b := DecodeBookmarkData(data, maxTocs, fuel).value;
      && (|b.steps| == 0 <==> b.header.firstTocOffset == 0)
      && (|b.steps| > 0 ==>
          && ReadTocHeader(data, CalcOffset(b.header.firstTocOffset)) == Ok(b.steps[0].header)
          && b.steps[|b.steps| - 1].header.nextTocOffset == 0)
      && forall i :: 0 <= i < |b.steps| - 1 ==>
          && b.steps[i].header.nextTocOffset != 0
          && ReadTocHeader(data, CalcOffset(b.steps[i].header.nextTocOffset)) == Ok(b.steps[i + 1].header)
  {
    var b := DecodeBookmarkData(data, maxTocs, fuel).value;
    var t := CalcOffset(b.header.firstTocOffset);
    assert DecodeFrom(data, t, [], maxTocs, fuel) == Ok(b.steps);
    ChainEnd(data, t, [], maxTocs, fuel);
    if |b.steps| > 0 {
      ChainHeaderAt(data, t, [], maxTocs, fuel, 0);
    }
    forall i | 0 <= i < |b.steps| - 1
      ensures b.steps[i].header.nextTocOffset != 0
      ensures ReadTocHeader(data, CalcOffset(b.steps[i].header.nextTocOffset)) == Ok(b.steps[i + 1].header)
    {
      ChainHeaderAt(data, t, [], maxTocs, fuel, i + 1);
    }
  }

  /** Each turn of the TOC loop decodes again the entries of all TOCs read
      so far: entry list i is the entries of TOCs 0..i in order, so each list
      extends the one before with the entries of the newly read TOC. */
  lemma BookmarkEntries(data: seq<byte>, maxTocs: nat, fuel: nat, i: nat)
    requires DecodeBookmarkData(data, maxTocs, fuel).Ok?
    requires i < |DecodeBookmarkData(data, maxTocs, fuel).value.steps|
    ensures var s := DecodeBookmarkData(data, maxTocs, fuel).value.steps;
      && EntriesOfAll(data, Headers(s[..i + 1]), fuel) == Ok(s[i].entries)
      && TocEntries(data, s[i].header, fuel).Ok?
      && (i == 0 ==> s[i].entries == TocEntries(data, s[i].header, fuel).value)
      && (i > 0 ==> s[i].entries == s[i - 1].entries + TocEntries(data, s[i].header, fuel).value)
  {
    var b := DecodeBookmarkData(data, maxTocs, fuel).value;
    var s := b.steps;
    var t := CalcOffset(b.header.firstTocOffset);
    assert DecodeFrom(data, t, [], maxTocs, fuel) == Ok(s);
    ChainEntriesAt(data, t, [], maxTocs, fuel, i);
    HeadersSnoc(s, i);
    EntriesOfAllAppend(data, Headers(s[..i]), s[i].header, fuel);
    if i == 0 {
      assert [] + TocEntries(data, s[0].header, fuel).value == TocEntries(data, s[0].header, fuel).value;
    } else {
      ChainEntriesAt(data, t, [], maxTocs, fuel, i - 1);
    }
  }

  // ---------------------------------------------------------------------------
  // Imperative decoder: the TOC loop, the loop over collected TOC headers and
  // the loop over each TOC's entries.
  // ---------------------------------------------------------------------------

  lemma EntriesFromStep(data: seq<byte>, hdr: TocHeader, k: nat, fuel: nat)
    requires k < hdr.numEntries
    ensures var e := ReadEntry(data, EntryPos(hdr, k), fuel);
      && (e.Err? ==> EntriesFrom(data, hdr, k, fuel) == Err(e.error))
      && (e.Ok? ==> EntriesFrom(data, hdr, k, fuel) == Prepend([e.value], EntriesFrom(data, hdr, k + 1, fuel)))
  {
  }

  /** One turn of the TOC loop, whether it fails or goes on. */
  lemma DecodeFromTurn(data: seq<byte>, t: nat, hdrs: seq<TocHeader>, budget: nat, fuel: nat)
    requires t != HeaderEndBitPos && budget > 0
    ensures var h := ReadTocHeader(data, t);
      && (h.Err? ==> DecodeFrom(data, t, hdrs, budget, fuel) == Err(h.error))
      && (h.Ok? ==>
          var es := EntriesOfAll(data, hdrs + [h.value], fuel);
          && (es.Err? ==> DecodeFrom(data, t, hdrs, budget, fuel) == Err(es.error))
          && (es.Ok? ==>
                DecodeFrom(data, t, hdrs, budget, fuel)
                == Prepend([TocStep(h.value, es.value)],
                           DecodeFrom(data, CalcOffset(h.value.nextTocOffset), hdrs + [h.value], budget - 1, fuel))))
  {
  }

  method ReadEntries(data: seq<byte>, hdr: TocHeader, fuel: nat) returns (r: Result<seq<TocEntry>, BookmarkError>)
    ensures r == TocEntries(data, hdr, fuel)
  {
    var acc: seq<TocEntry> := [];
    var k: nat := 0;
    PrependNil(EntriesFrom(data, hdr, 0, fuel));
    while k < hdr.numEntries
      invariant k <= hdr.numEntries
      invariant TocEntries(data, hdr, fuel) == Prepend(acc, EntriesFrom(data, hdr, k, fuel))
      decreases hdr.numEntries - k
    {
      EntriesFromStep(data, hdr, k, fuel);
      var e := ReadEntry(data, EntryPos(hdr, k), fuel);
      if e.Err? {
        return Err(e.error);
      }
      PrependPrepend(acc, [e.value], EntriesFrom(data, hdr, k + 1, fuel));
      acc := acc + [e.value];
      k := k + 1;
    }
    assert acc + [] == acc;
    r := Ok(acc);
  }

  method CollectEntries(data: seq<byte>, hdrs: seq<TocHeader>, fuel: nat) returns (r: Result<seq<TocEntry>, BookmarkError>)
    ensures r == EntriesOfAll(data, hdrs, fuel)
  {
    var acc: seq<TocEntry> := [];
    var j := 0;
    PrependNil(EntriesOfAll(data, hdrs, fuel));
    while j < |hdrs|
      invariant j <= |hdrs|
      invariant EntriesOfAll(data, hdrs, fuel) == Prepend(acc, EntriesOfAll(data, hdrs[j..], fuel))
    {
      assert hdrs[j..][0] == hdrs[j] && hdrs[j..][1..] == hdrs[j + 1..];
      var es := ReadEntries(data, hdrs[j], fuel);
      if es.Err? {
        return Err(es.error);
      }
      PrependPrepend(acc, es.value, EntriesOfAll(data, hdrs[j + 1..], fuel));
      acc := acc + es.value;
      j := j + 1;
    }
    assert acc + [] == acc;
    r := Ok(acc);
  }

  method DecodeBookmark(data: seq<byte>, maxTocs: nat, fuel: nat) returns (r: Result<Bookmark, BookmarkError>)
    ensures r == DecodeBookmarkData(data, maxTocs, fuel)
  {
    var header := DecodeHeader(data);
    if header.Err? {
      return Err(header.error);
    }
    var tocOffset := CalcOffset(header.value.firstTocOffset);
    var tocHeaders: seq<TocHeader> := [];
    var steps: seq<TocStep> := [];
    var budget := maxTocs;
    ghost var spec := DecodeFrom(data, tocOffset, [], maxTocs, fuel);
    PrependNil(spec);
    while tocOffset != HeaderEndBitPos
      invariant spec == Prepend(steps, DecodeFrom(data, tocOffset, tocHeaders, budget, fuel))
      decreases budget
    {
      if budget == 0 {
        return Err(OutOfFuel);
      }
      DecodeFromTurn(data, tocOffset, tocHeaders, budget, fuel);
      var hdr := ReadTocHeader(data, tocOffset);
      if hdr.Err? {
        return Err(hdr.error);
      }
      tocHeaders := tocHeaders + [hdr.value];
      tocOffset := CalcOffset(hdr.value.nextTocOffset);
      var es := CollectEntries(data, tocHeaders, fuel);
      if es.Err? {
        return Err(es.error);
      }
      PrependPrepend(steps, [TocStep(hdr.value, es.value)], DecodeFrom(data, tocOffset, tocHeaders, budget - 1, fuel));
      steps := steps + [TocStep(hdr.value, es.value)];
      budget := budget - 1;
    }
    assert steps + [] == steps;
    r := Ok(Bookmark(header.value, steps));
  }
}
