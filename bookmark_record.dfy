/** Bookmark data records (decodeRecord) and the offset rule (calcOffset).

    A record is a 4-byte length, a 4-byte type and a payload that depends on
    the type. Arrays, dictionaries and relative URLs hold offsets of further
    records; nothing stops a record from reaching itself through them, so
    the recursion is bounded by a depth budget, `fuel`. */
module BookmarkRecord {
  import opened Wrappers
  import opened Bytes
  import opened BookmarkReader

  datatype BookmarkError =
    | ShortRead                 // a field read ran past the end of the data
    | BadMagic(magic: string)   // the header magic is neither "book" nor "alis"
    | BadHeaderSize(size: nat) // header_size is not 48
    | BadTocMagic(tocMagic: nat) // a TOC header's magic is not 0xfffffffe
    | OutOfFuel                 // the depth or chain budget was used up

  const HeaderEnd: nat := 48
  const HeaderEndBitPos: nat := HeaderEnd * 8

  /** Offsets count bytes from the end of the 48-byte header; the result is a
      bit position. Offset 0 designates the header end itself, which is how
      the TOC chain marks its last TOC. The operands are 32-bit, so the
      64-bit arithmetic of the original cannot wrap. */
  function CalcOffset(i: nat): (r: nat)
    ensures r >= HeaderEndBitPos
    ensures r == HeaderEndBitPos <==> i == 0
    ensures r == HeaderEndBitPos + 8 * i
  {
    8 * (i + HeaderEnd)
  }

  const DataTypeString: nat := 0x0101
  const DataTypeData: nat := 0x0201
  const DataTypeNumber8: nat := 0x0301
  const DataTypeNumber16: nat := 0x0302
  const DataTypeNumber32: nat := 0x0303
  const DataTypeNumber64: nat := 0x0304
  const DataTypeNumber32F: nat := 0x0305
  const DataTypeNumber64F: nat := 0x0306
  const DataTypeDate: nat := 0x0400
  const DataTypeBooleanFalse: nat := 0x0500
  const DataTypeBooleanTrue: nat := 0x0501
  const DataTypeArray: nat := 0x0601
  const DataTypeDictionary: nat := 0x0701
  const DataTypeUUID: nat := 0x0801
  const DataTypeURL: nat := 0x0901
  const DataTypeRelativeURL: nat := 0x0902

  /** Bytes per element that the element count is derived from. */
  const ArrayEntrySize: nat := 4
  const DictEntrySize: nat := 4

  datatype Record = Record(length: nat, typ: nat, value: RecordValue)

  datatype DictEntry = DictEntry(key: Record, value: Record)

  datatype RecordValue =
    | Text(bytes: seq<byte>)              // string and URL: `length` bytes of UTF-8
    | Data(bytes: seq<byte>)              // raw data and UUID: `length` bytes
    | Number(number: int)                 // signed 1-, 2-, 4- or 8-byte integer
    | FloatBytes(raw: seq<byte>)          // float32, float64 or date, uninterpreted
    | Boolean(truth: bool)                // no payload: the type is the value
    | Array(elements: seq<Record>)
    | Dictionary(entries: seq<DictEntry>)
    | RelativeUrl(base: Record, suffix: Record)
    | Unknown                             // any other type: no payload is read

  predicate IsBooleanType(typ: nat) {
    typ == DataTypeBooleanFalse || typ == DataTypeBooleanTrue
  }

  predicate IsNestedType(typ: nat) {
    typ == DataTypeArray || typ == DataTypeDictionary || typ == DataTypeRelativeURL
  }

  /** `n` bytes at bit position p. */
  function ReadBytes(data: seq<byte>, p: nat, n: nat): Result<seq<byte>, BookmarkError> {
    if HasBits(data, p, 8 * n) then Ok(BytesAt(data, p, n)) else Err(ShortRead)
  }

  /** A signed 1-, 2-, 4- or 8-byte integer at bit position p. */
  function ReadSigned(data: seq<byte>, p: nat, n: nat): Result<int, BookmarkError>
    requires n in {1, 2, 4, 8}
  {
    if !HasBits(data, p, 8 * n) then Err(ShortRead)
    else if n == 1 then Ok(Signed(U8At(data, p), 0x80, 0x100))
    else if n == 2 then Ok(Signed(U16At(data, p), 0x8000, 0x1_0000))
    else if n == 4 then Ok(Signed(U32At(data, p), Two31, Two32))
    else Ok(Signed(U64At(data, p), Two63, Two64))
  }

  /** The payload of a type that holds no offsets, read at bit position `body`. */
  function ScalarValue(data: seq<byte>, n: nat, typ: nat, body: nat): Result<RecordValue, BookmarkError> {
    if typ == DataTypeString || typ == DataTypeURL then
      var s :- ReadBytes(data, body, n); Ok(Text(s))
    else if typ == DataTypeData || typ == DataTypeUUID then
      var s :- ReadBytes(data, body, n); Ok(Data(s))
    else if typ == DataTypeNumber8 then var v :- ReadSigned(data, body, 1); Ok(Number(v))
    else if typ == DataTypeNumber16 then var v :- ReadSigned(data, body, 2); Ok(Number(v))
    else if typ == DataTypeNumber32 then var v :- ReadSigned(data, body, 4); Ok(Number(v))
    else if typ == DataTypeNumber64 then var v :- ReadSigned(data, body, 8); Ok(Number(v))
    else if typ == DataTypeNumber32F then var s :- ReadBytes(data, body, 4); Ok(FloatBytes(s))
    else if typ == DataTypeNumber64F || typ == DataTypeDate then
      var s :- ReadBytes(data, body, 8); Ok(FloatBytes(s))
    else if typ == DataTypeBooleanFalse then Ok(Boolean(false))
    else if typ == DataTypeBooleanTrue then Ok(Boolean(true))
    else Ok(Unknown)
  }

  function ReadU32(data: seq<byte>, p: nat): Result<nat, BookmarkError> {
    if HasBits(data, p, 32) then Ok(U32At(data, p)) else Err(ShortRead)
  }

  /** The record at bit position `pos`. */
  function DecodeRecord(data: seq<byte>, pos: nat, fuel: nat): Result<Record, BookmarkError>
    decreases fuel, 2, 0
  {
    if fuel == 0 then Err(OutOfFuel)
    else
      var n :- ReadU32(data, pos);
      var typ :- ReadU32(data, pos + 32);
      var v :- DecodeValue(data, n, typ, pos + 64, fuel);
      Ok(Record(n, typ, v))
  }

  /** The payload of a record of length n and type typ, at bit position `body`. */
  function DecodeValue(data: seq<byte>, n: nat, typ: nat, body: nat, fuel: nat): Result<RecordValue, BookmarkError>
    requires fuel > 0
    decreases fuel, 1, 0
  {
    if typ == DataTypeArray then
      var es :- ArrayElements(data, body, n / ArrayEntrySize, 0, fuel);
      Ok(Array(es))
    else if typ == DataTypeDictionary then
      var es :- DictElements(data, body, n / DictEntrySize, 0, fuel);
      Ok(Dictionary(es))
    else if typ == DataTypeRelativeURL then
      // both offsets are used as bit positions as they stand
      var baseOffset :- ReadU32(data, body);
      var base :- DecodeRecord(data, baseOffset, fuel - 1);
      var suffixOffset :- ReadU32(data, body + 32);
      var suffix :- DecodeRecord(data, suffixOffset, fuel - 1);
      Ok(RelativeUrl(base, suffix))
    else ScalarValue(data, n, typ, body)
  }

  /** Array element i: a 4-byte offset of a record. */
  function ArrayElement(data: seq<byte>, body: nat, i: nat, fuel: nat): Result<Record, BookmarkError>
    requires fuel > 0
    decreases fuel, 0, 0
  {
    var offset :- ReadU32(data, body + 32 * i);
    DecodeRecord(data, CalcOffset(offset), fuel - 1)
  }

  /** Array elements i.. of `count`, in order. */
  function ArrayElements(data: seq<byte>, body: nat, count: nat, i: nat, fuel: nat): Result<seq<Record>, BookmarkError>
    requires fuel > 0 && i <= count
    decreases fuel, 0, count - i + 1
  {
    if i == count then Ok([])
    else
      var e :- ArrayElement(data, body, i, fuel);
      var rest :- ArrayElements(data, body, count, i + 1, fuel);
      Ok([e] + rest)
  }

  /** Dictionary element i: a key offset and a value offset, 8 bytes in all. */
  function DictElement(data: seq<byte>, body: nat, i: nat, fuel: nat): Result<DictEntry, BookmarkError>
    requires fuel > 0
    decreases fuel, 0, 0
  {
    var keyOffset :- ReadU32(data, body + 64 * i);
    var key :- DecodeRecord(data, CalcOffset(keyOffset), fuel - 1);
    var valueOffset :- ReadU32(data, body + 64 * i + 32);
    var value :- DecodeRecord(data, CalcOffset(valueOffset), fuel - 1);
    Ok(DictEntry(key, value))
  }

  /** Dictionary elements i.. of `count`, in order. */
  function DictElements(data: seq<byte>, body: nat, count: nat, i: nat, fuel: nat): Result<seq<DictEntry>, BookmarkError>
    requires fuel > 0 && i <= count
    decreases fuel, 0, count - i + 1
  {
    if i == count then Ok([])
    else
      var e :- DictElement(data, body, i, fuel);
      var rest :- DictElements(data, body, count, i + 1, fuel);
      Ok([e] + rest)
  }

  // ---------------------------------------------------------------------------
  // Properties

  /** Offsets are injective: distinct offsets designate distinct positions. */
  lemma CalcOffsetInjective(i: nat, j: nat)
    ensures CalcOffset(i) == CalcOffset(j) <==> i == j
  {
  }

  /** String and URL records read exactly `length` bytes after the 8-byte head. */
  lemma TextPayload(data: seq<byte>, pos: nat, fuel: nat)
    requires fuel > 0 && HasBits(data, pos, 64)
    requires U32At(data, pos + 32) in {DataTypeString, DataTypeURL}
    ensures var n := U32At(data, pos);
      && (DecodeRecord(data, pos, fuel).Ok? <==> HasBits(data, pos + 64, 8 * n))
      && (DecodeRecord(data, pos, fuel).Ok? ==>
            DecodeRecord(data, pos, fuel).value == Record(n, U32At(data, pos + 32), Text(BytesAt(data, pos + 64, n))))
  {
  }

  /** Booleans read nothing after the head, whatever their length says. */
  lemma BooleanReadsNoPayload(data: seq<byte>, pos: nat, fuel: nat)
    requires fuel > 0 && HasBits(data, pos, 64)
    requires IsBooleanType(U32At(data, pos + 32))
    ensures DecodeRecord(data, pos, fuel)
         == Ok(Record(U32At(data, pos), U32At(data, pos + 32), Boolean(U32At(data, pos + 32) == DataTypeBooleanTrue)))
  {
  }

  /** A type outside the table reads nothing after the head. */
  lemma UnknownTypeReadsNoPayload(data: seq<byte>, pos: nat, fuel: nat)
    requires fuel > 0 && HasBits(data, pos, 64)
    requires U32At(data, pos + 32) !in {DataTypeString, DataTypeData, DataTypeNumber8, DataTypeNumber16,
                                         DataTypeNumber32, DataTypeNumber64, DataTypeNumber32F, DataTypeNumber64F,
                                         DataTypeDate, DataTypeBooleanFalse, DataTypeBooleanTrue, DataTypeArray,
                                         DataTypeDictionary, DataTypeUUID, DataTypeURL, DataTypeRelativeURL}
    ensures DecodeRecord(data, pos, fuel) == Ok(Record(U32At(data, pos), U32At(data, pos + 32), Unknown))
  {
  }

  lemma {:induction false} ArrayElementsLength(data: seq<byte>, body: nat, count: nat, i: nat, fuel: nat)
    requires fuel > 0 && i <= count
    requires ArrayElements(data, body, count, i, fuel).Ok?
    ensures |ArrayElements(data, body, count, i, fuel).value| == count - i
    decreases count - i
  {
    if i < count {
      ArrayElementsLength(data, body, count, i + 1, fuel);
    }
  }

  lemma {:induction false} ArrayElementsAt(data: seq<byte>, body: nat, count: nat, i: nat, fuel: nat, j: nat)
    requires fuel > 0 && i <= j < count
    requires ArrayElements(data, body, count, i, fuel).Ok?
    ensures |ArrayElements(data, body, count, i, fuel).value| == count - i
    ensures ArrayElement(data, body, j, fuel) == Ok(ArrayElements(data, body, count, i, fuel).value[j - i])
    decreases j - i
  {
    ArrayElementsLength(data, body, count, i, fuel);
    if i < j {
      ArrayElementsAt(data, body, count, i + 1, fuel, j);
    }
  }

  /** An array of length n has n / 4 elements; element j is the record at
      the offset in the j-th 4-byte slot of the payload. */
  lemma ArrayCount(data: seq<byte>, pos: nat, fuel: nat)
    requires DecodeRecord(data, pos, fuel).Ok?
    requires DecodeRecord(data, pos, fuel).value.typ == DataTypeArray
    ensures var r := DecodeRecord(data, pos, fuel).value;
      && fuel > 0 && r.value.Array?
      && |r.value.elements| == r.length / ArrayEntrySize
      && forall j :: 0 <= j < |r.value.elements| ==>
        && HasBits(data, pos + 64 + 32 * j, 32)
        && DecodeRecord(data, CalcOffset(U32At(data, pos + 64 + 32 * j)), fuel - 1) == Ok(r.value.elements[j])
  {
    assert fuel > 0 && HasBits(data, pos, 64);
    var count := U32At(data, pos) / ArrayEntrySize;
    assert U32At(data, pos + 32) == DataTypeArray;
    var es := ArrayElements(data, pos + 64, count, 0, fuel);
    assert DecodeValue(data, U32At(data, pos), DataTypeArray, pos + 64, fuel) == Ok(Array(es.value));
    ArrayElementsLength(data, pos + 64, count, 0, fuel);
    forall j | 0 <= j < count
      ensures HasBits(data, pos + 64 + 32 * j, 32)
      ensures DecodeRecord(data, CalcOffset(U32At(data, pos + 64 + 32 * j)), fuel - 1) == Ok(es.value[j])
    {
      ArrayElementsAt(data, pos + 64, count, 0, fuel, j);
    }
  }

  lemma {:induction false} DictElementsLength(data: seq<byte>, body: nat, count: nat, i: nat, fuel: nat)
    requires fuel > 0 && i <= count
    requires DictElements(data, body, count, i, fuel).Ok?
    ensures |DictElements(data, body, count, i, fuel).value| == count - i
    decreases count - i
  {
    if i < count {
      DictElementsLength(data, body, count, i + 1, fuel);
    }
  }

  lemma {:induction false} DictElementsAt(data: seq<byte>, body: nat, count: nat, i: nat, fuel: nat, j: nat)
    requires fuel > 0 && i <= j < count
    requires DictElements(data, body, count, i, fuel).Ok?
    ensures |DictElements(data, body, count, i, fuel).value| == count - i
    ensures DictElement(data, body, j, fuel) == Ok(DictElements(data, body, count, i, fuel).value[j - i])
    decreases j - i
  {
    DictElementsLength(data, body, count, i, fuel);
    if i < j {
      DictElementsAt(data, body, count, i + 1, fuel, j);
    }
  }

  /** Dictionary element j reads its key and value offsets from the j-th
      8-byte slot. */
  lemma DictElementShape(data: seq<byte>, body: nat, j: nat, fuel: nat)
    requires fuel > 0 && DictElement(data, body, j, fuel).Ok?
    ensures HasBits(data, body + 64 * j, 64)
    ensures DecodeRecord(data, CalcOffset(U32At(data, body + 64 * j)), fuel - 1) == Ok(DictElement(data, body, j, fuel).value.key)
    ensures DecodeRecord(data, CalcOffset(U32At(data, body + 64 * j + 32)), fuel - 1) == Ok(DictElement(data, body, j, fuel).value.value)
  {
  }

  lemma DictElementsShape(data: seq<byte>, body: nat, count: nat, fuel: nat)
    requires fuel > 0 && DictElements(data, body, count, 0, fuel).Ok?
    ensures var es := DictElements(data, body, count, 0, fuel).value;
      && |es| == count
      && (count > 0 ==> HasBits(data, body, 64 * count))
      && forall j :: 0 <= j < count ==>
        && DecodeRecord(data, CalcOffset(U32At(data, body + 64 * j)), fuel - 1) == Ok(es[j].key)
        && DecodeRecord(data, CalcOffset(U32At(data, body + 64 * j + 32)), fuel - 1) == Ok(es[j].value)
  {
    var es := DictElements(data, body, count, 0, fuel).value;
    DictElementsLength(data, body, count, 0, fuel);
    forall j | 0 <= j < count
      ensures HasBits(data, body + 64 * j, 64)
      ensures DecodeRecord(data, CalcOffset(U32At(data, body + 64 * j)), fuel - 1) == Ok(es[j].key)
      ensures DecodeRecord(data, CalcOffset(U32At(data, body + 64 * j + 32)), fuel - 1) == Ok(es[j].value)
    {
      DictElementsAt(data, body, count, 0, fuel, j);
      DictElementShape(data, body, j, fuel);
    }
    if count > 0 {
      assert HasBits(data, body + 64 * (count - 1), 64);
      assert body + 64 * (count - 1) + 64 == body + 64 * count;
    }
  }

  /** A dictionary of length n also has n / 4 elements, though each element
      holds two 4-byte offsets: it decodes only if the data holds 8 bytes
      per element after the head, twice what its length covers. */
  lemma DictionaryCount(data: seq<byte>, pos: nat, fuel: nat)
    requires DecodeRecord(data, pos, fuel).Ok?
    requires DecodeRecord(data, pos, fuel).value.typ == DataTypeDictionary
    ensures var r := DecodeRecord(data, pos, fuel).value;
      && fuel > 0 && r.value.Dictionary?
      && |r.value.entries| == r.length / DictEntrySize
      && HasBits(data, pos + 64, 64 * (r.length / DictEntrySize))
      && forall j :: 0 <= j < |r.value.entries| ==>
        && DecodeRecord(data, CalcOffset(U32At(data, pos + 64 + 64 * j)), fuel - 1) == Ok(r.value.entries[j].key)
        && DecodeRecord(data, CalcOffset(U32At(data, pos + 64 + 64 * j + 32)), fuel - 1) == Ok(r.value.entries[j].value)
  {
    assert fuel > 0 && HasBits(data, pos, 64);
    var count := U32At(data, pos) / DictEntrySize;
    assert U32At(data, pos + 32) == DataTypeDictionary;
    var es := DictElements(data, pos + 64, count, 0, fuel);
    assert DecodeValue(data, U32At(data, pos), DataTypeDictionary, pos + 64, fuel) == Ok(Dictionary(es.value));
    DictElementsShape(data, pos + 64, count, fuel);
  }

  /** The base and suffix of a relative URL are read at their offsets taken
      directly as bit positions, not through CalcOffset. */
  lemma RelativeUrlOffsetsAsIs(data: seq<byte>, pos: nat, fuel: nat)
    requires DecodeRecord(data, pos, fuel).Ok?
    requires DecodeRecord(data, pos, fuel).value.typ == DataTypeRelativeURL
    ensures var r := DecodeRecord(data, pos, fuel).value;
      && fuel > 0 && r.value.RelativeUrl? && HasBits(data, pos + 64, 64)
      && DecodeRecord(data, U32At(data, pos + 64), fuel - 1) == Ok(r.value.base)
      && DecodeRecord(data, U32At(data, pos + 96), fuel - 1) == Ok(r.value.suffix)
  {
  }

  /** The depth budget only cuts a decode off: a decode that succeeds with
      some budget gives the same record with any larger one. */
  lemma {:induction false} FuelMonotone(data: seq<byte>, pos: nat, fuel: nat, more: nat)
    requires DecodeRecord(data, pos, fuel).Ok? && fuel <= more
    ensures DecodeRecord(data, pos, more) == DecodeRecord(data, pos, fuel)
    decreases fuel, 2, 0
  {
    ValueFuelMonotone(data, U32At(data, pos), U32At(data, pos + 32), pos + 64, fuel, more);
  }

  lemma {:induction false} ValueFuelMonotone(data: seq<byte>, n: nat, typ: nat, body: nat, fuel: nat, more: nat)
    requires fuel > 0 && fuel <= more
    requires DecodeValue(data, n, typ, body, fuel).Ok?
    ensures DecodeValue(data, n, typ, body, more) == DecodeValue(data, n, typ, body, fuel)
    decreases fuel, 1, 0
  {
    if typ == DataTypeArray {
      ArrayFuelMonotone(data, body, n / ArrayEntrySize, 0, fuel, more);
    } else if typ == DataTypeDictionary {
      DictFuelMonotone(data, body, n / DictEntrySize, 0, fuel, more);
    } else if typ == DataTypeRelativeURL {
      FuelMonotone(data, U32At(data, body), fuel - 1, more - 1);
      FuelMonotone(data, U32At(data, body + 32), fuel - 1, more - 1);
    }
  }

  lemma {:induction false} ArrayFuelMonotone(data: seq<byte>, body: nat, count: nat, i: nat, fuel: nat, more: nat)
    requires fuel > 0 && i <= count && fuel <= more
    requires ArrayElements(data, body, count, i, fuel).Ok?
    ensures ArrayElements(data, body, count, i, more) == ArrayElements(data, body, count, i, fuel)
    decreases fuel, 0, count - i + 1
  {
    if i < count {
      FuelMonotone(data, CalcOffset(U32At(data, body + 32 * i)), fuel - 1, more - 1);
      ArrayFuelMonotone(data, body, count, i + 1, fuel, more);
    }
  }

  lemma {:induction false} DictFuelMonotone(data: seq<byte>, body: nat, count: nat, i: nat, fuel: nat, more: nat)
    requires fuel > 0 && i <= count && fuel <= more
    requires DictElements(data, body, count, i, fuel).Ok?
    ensures DictElements(data, body, count, i, more) == DictElements(data, body, count, i, fuel)
    decreases fuel, 0, count - i + 1
  {
    if i < count {
      FuelMonotone(data, CalcOffset(U32At(data, body + 64 * i)), fuel - 1, more - 1);
      FuelMonotone(data, CalcOffset(U32At(data, body + 64 * i + 32)), fuel - 1, more - 1);
      DictFuelMonotone(data, body, count, i + 1, fuel, more);
    }
  }

  /** A record that reaches itself never decodes, whatever the budget: an
      array whose single element offset points back at the array. */
  lemma {:induction false} SelfReferenceRunsOut(data: seq<byte>, offset: nat, fuel: nat)
    requires HasBits(data, CalcOffset(offset), 96)
    requires var pos := CalcOffset(offset);
      && U32At(data, pos) == ArrayEntrySize && U32At(data, pos + 32) == DataTypeArray
      && U32At(data, pos + 64) == offset
    ensures DecodeRecord(data, CalcOffset(offset), fuel) == Err(OutOfFuel)
    decreases fuel
  {
    var pos := CalcOffset(offset);
    if fuel > 0 {
      SelfReferenceRunsOut(data, offset, fuel - 1);
      assert ArrayElements(data, pos + 64, 1, 0, fuel) == Err(OutOfFuel);
    }
  }
}
