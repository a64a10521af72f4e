# fq AVI and Apple BookmarkData decoders, modelled in Dafny

This project models two decoders of the fq binary-format tool and proves properties of the models.

**AVI.** This is the semantic layer of the AVI RIFF decoder (`format/riff/avi.go`). It has four parts:

- a classifier for 4-character chunk tags. It turns `##dc` and `ix##` tags into a stream kind and a stream number (`AviChunkId`).
- decoders for the OpenDML standard index (`ix##` chunks and super-index targets), the OpenDML super index (`indx`) and the legacy flat index (`idx1`) (`AviIndex`). It also covers the stream format chunk (`strf`): its trailing data and the codec group it selects (`AviStreamFormat`).
- the chunk handler (`AviDecoder`). It is run over the chunks the RIFF walker visits. It accumulates the stream lists (`aviStrl`), the streams (`aviStream`), the idx1 entries, the `movi` position and the RIFF form type. It exists twice:
  - as a pure step function, `Step`, folded by `Steps`;
  - as a `Decoder` class whose methods update its fields. Each method is proved to match the step function.
- the second pass (`AviSamples`). For each stream it selects exactly one source of sample ranges: the super index, then `ix##` chunks, then idx1. It then decides for each sample whether the stream's codec decodes it or it stays raw bits.

**Apple BookmarkData.** This is the bookmark decoder (`format/bookmark/bookmark.go`). Its parts:

- the 48-byte header (`Bookmark`);
- the chain of TOC headers, linked by offsets relative to the end of the header;
- the 12-byte TOC entries;
- the type-tagged records (`BookmarkRecord`). Arrays, dictionaries and relative URLs in a record point to further records.

Positions are bit positions, as in the original. A relative URL's offsets are used as bit positions without conversion, so reads can start off a byte boundary. `BookmarkReader` models those reads bit-exactly.

The code's own behaviour is followed where it differs from a plain reading of the formats:

- A tag whose two halves are both digits is classified by the first half (`"0012"` is kind `"12"` of stream 0).
- The base field of a super index is read and ignored.
- A dictionary's element count is its length divided by 4, although each element holds two 4-byte offsets.
- After each TOC header is read, the entries of all TOCs read so far are decoded again.

Shared modules: `Wrappers` (Option and Result) and `Bytes` (little-endian reads at byte positions, and int64 wrap-around).

## Model

| member | source | states |
|---|---|---|
| `AviChunkId.ParseChunkID` | format/riff/avi.go:129-163 | A classified tag has a 2-character kind and a stream number below 100; an unclassified one is exactly `("", 0, false)` |
| `AviChunkId.ParseChunkIDInverse` | format/riff/avi.go:129-163 | A classified tag is the spelling of its result in the form the precedence picks; a tag is unclassified exactly when its length is not 4 or neither half is all digits |
| `AviChunkId.Atoi2OfTwoDigits` | format/riff/avi.go:156-159 | Reading back the two-digit spelling of a number below 100 gives the number |
| `AviChunkId.TwoDigitsOfAtoi2` | format/riff/avi.go:156-159 | Every two-digit string is the spelling of the number it reads as, leading zero included |
| `AviChunkId.StreamChunkIDRoundTrip` | format/riff/avi.go:145-148 | `##kind` gives `(kind, ##, true)` for any kind, because the first half is tested first |
| `AviChunkId.IndexChunkIDRoundTrip` | format/riff/avi.go:149-151 | `kind##` gives `(kind, ##, true)` when the kind is not all digits; otherwise the first half wins |
| `AviChunkId.DigitsFirstPrecedence` | format/riff/avi.go:145-151 | `"0012"` is kind `"12"` of stream 0 |
| `AviChunkId.IsStreamType` | format/riff/avi.go:165-174 | Definition: the stream payload kinds db, dc and wb; stated through `DecorateStreamID` and `NonStreamTagsDecorateToZero` |
| `AviChunkId.DecorateStreamID` | format/riff/avi.go:176-184 | A tag keeps its classification exactly when it is classified and of a stream payload kind; every other tag gives `("", 0)` |
| `AviChunkId.NonStreamTagsDecorateToZero` | format/riff/avi.go:165-184 | `pc` and `ix` are not stream payload kinds; `"00pc"`, `"ix01"` and `"rec "` decorate to `("", 0)` |
| `Bytes.ToInt64` | format/riff/avi.go:196 | Go's int64 conversion stays in the int64 range and keeps every value below 2^63 |
| `AviIndex.ChunkIndex` | format/riff/avi.go:187-215 | Definition of the standard index decode; stated by `ChunkIndexShape` |
| `AviIndex.SuperIndex` | format/riff/avi.go:442-473 | Definition of the super index decode; stated by `SuperIndexShape` and `SuperIndexIgnoresBase` |
| `AviIndex.Idx1Entries` | format/riff/avi.go:253-280 | Definition of the idx1 decode; stated by `Idx1Shape` |
| `AviIndex.SizeKeyFrameSplit` | format/riff/avi.go:202-205 | `size_keyframe` is the masked size plus bit 31; the key-frame flag holds exactly when bit 31 is clear |
| `AviIndex.ChunkIndexShape` | format/riff/avi.go:187-215 | A standard index decodes exactly when header and entries in use fit. It yields `entries_in_use` ranges in entry order; range i starts at `(base + offset_i) * 8` and is `(size_keyframe_i & 0x7fffffff) * 8` long |
| `AviIndex.DecodeChunkIndex` | format/riff/avi.go:187-215 | The counted append loop returns the standard index's ranges, or `ShortRead` |
| `AviIndex.SuperIndexShape` | format/riff/avi.go:448-471 | A super index yields `entries_in_use` ranges in entry order, range i being `(offset_i * 8, size_i * 8)` |
| `AviIndex.SuperIndexIgnoresBase` | format/riff/avi.go:454 | Changing the super index's 64-bit base field leaves its ranges unchanged |
| `AviIndex.DecodeSuperIndex` | format/riff/avi.go:448-471 | The entry loop returns the super index's ranges, or `ShortRead` |
| `AviIndex.Idx1Shape` | format/riff/avi.go:253-280 | idx1 holds `|payload| / 16` entries in file order, trailing bytes ignored. Entry i carries offset*8 and length*8, and the tag's decorated stream number (0 for a non-stream tag) |
| `AviIndex.DecodeIdx1` | format/riff/avi.go:254-279 | The loop that runs while 128 bits remain returns the idx1 entries |
| `AviStreamFormat.ParseVideoFormat` | format/riff/avi.go:357-399 | Definition of BITMAPINFOHEADER; stated by `VideoExtraSize` and `StrfCodecMapping` |
| `AviStreamFormat.ParseAudioFormat` | format/riff/avi.go:401-426 | Definition of WAVEFORMATEX; stated by `AudioExtraSize`, `AudioWithoutCbSize` and `StrfCodecMapping` |
| `AviStreamFormat.ParseStrf` | format/riff/avi.go:347-440 | Only video and audio formats can select a codec; any kind other than vids, auds and iavs reads nothing and selects none |
| `AviStreamFormat.StrfCodecMapping` | format/riff/avi.go:356-436 | The codec is AVC / HEVC exactly for video with a listed H.264 / HEVC compression tag, and MP3 / FLAC exactly for audio with that WAVE format tag |
| `AviStreamFormat.VideoExtraSize` | format/riff/avi.go:357-374 | Video format succeeds exactly when the 40 header bytes are there and `bi_size >= 32`. Its extra size is `bits - bi_size*8 - 64` when positive, else 0 |
| `AviStreamFormat.AudioExtraSize` | format/riff/avi.go:401-416 | Audio format fails exactly when it is under 16 bytes, or `cb_size` is present, above 18 and claims more than the bytes after it. On success the extra field is `(cb_size - 18) * 8` bits when `cb_size` is present and above 18, else empty |
| `AviStreamFormat.AudioExtraExamples` | format/riff/avi.go:409-416 | `cb_size` 18 gives no extra bytes and 30 gives 12 |
| `AviStreamFormat.AudioWithoutCbSize` | format/riff/avi.go:409-416 | Without room for `cb_size` the audio format still decodes, with no extra |
| `AviDecoder.StepRiff` | format/riff/avi.go:239-242 | Definition of the RIFF case; stated by `RiffTypeChecked` |
| `AviDecoder.StepList` | format/riff/avi.go:243-252 | Definition of the LIST case; stated by `StepGrowth` |
| `AviDecoder.StepStrh` | format/riff/avi.go:313-345 | Definition of the strh case; stated by `StrhThenStrf` |
| `AviDecoder.StepStrf` | format/riff/avi.go:347-440 | Definition of the strf case; stated by `StrhThenStrf`, `OrphanStrf` and `StepKeepsLinked` |
| `AviDecoder.StepIndx` | format/riff/avi.go:442-473 | Definition of the indx case; stated by `IndxTargetsLinkedStream` |
| `AviDecoder.StepOther` | format/riff/avi.go:504-529 | Definition of the default case; stated by `TextChunk`, `IxTargetsNumberedStream` and `StreamChunkUse` |
| `AviDecoder.Step` | format/riff/avi.go:237-531 | Definition of the chunk handler; stated by `StepGrowth`, `StepKeepsLinked` and `StepKeepsFormats`, implemented by `Decoder.HandleChunk` |
| `AviDecoder.Steps` | format/riff/avi.go:228-532 | Definition of the walk; stated by `StepsGrowth`, `StepsKeepFormats` and `StepsStopAtBadRiff`, implemented by `Decoder.Walk` |
| `AviDecoder.AviDecode` | format/riff/avi.go:217-603 | Definition of the whole decode; stated by `DecodeShape`, `NoRiffNoAvi` and `BadRiffNoAvi`, implemented by `Decode` |
| `AviDecoder.StepGrowth` | format/riff/avi.go:237-531 | Only strf adds a stream, only a strl list adds a stream list, and only idx1 adds idx1 entries, appended in order |
| `AviDecoder.StepKeepsLinked` | format/riff/avi.go:347-354 | After every chunk, every stream a stream list links to exists |
| `AviDecoder.StepKeepsFormats` | format/riff/avi.go:442-529 | No chunk changes the codec mapping of an existing stream |
| `AviDecoder.StepsKeepFormats` | format/riff/avi.go:228-532 | Over the whole walk, a stream's codec mapping stays the one its strf set |
| `AviDecoder.StrhThenStrf` | format/riff/avi.go:313-354 | strh then strf in one stream list: the list records kind and handler, the format is parsed by that kind, and the new stream is linked to the list |
| `AviDecoder.OrphanStrf` | format/riff/avi.go:347-354 | strf outside a stream list still appends a stream, with no codec, and changes no stream list |
| `AviDecoder.IndxTargetsLinkedStream` | format/riff/avi.go:442-473 | indx appends its ranges to the linked stream of its list and to no other stream |
| `AviDecoder.IxTargetsNumberedStream` | format/riff/avi.go:510-517 | `ix##` decodes exactly when its index does. It appends the ranges to stream `##` only, and is ignored when that stream does not exist |
| `AviDecoder.StreamChunkUse` | format/riff/avi.go:518-527 | A stream chunk changes no state. It goes to a codec exactly when it is non-empty, decoding is on, its kind is db/dc/wb and stream `##` exists with a codec; then to that codec |
| `AviDecoder.TextChunk` | format/riff/avi.go:504-508 | A text-tag chunk is a text value and changes nothing |
| `AviDecoder.RiffTypeChecked` | format/riff/avi.go:239-241 | The RIFF chunk succeeds exactly when its form type is `"AVI "` |
| `AviDecoder.StepsGrowth` | format/riff/avi.go:228-532 | The walk creates one stream per strf and collects every idx1 chunk's entries in order. It keeps stream links valid and handles every chunk once |
| `AviDecoder.NoRiffNoAvi` | format/riff/avi.go:534-536 | A walk without a RIFF chunk fails |
| `AviDecoder.StepsStopAtBadRiff` | format/riff/avi.go:239-241 | A RIFF chunk whose form type is not `"AVI "`, or is too short to hold one, ends the walk with an error wherever it comes |
| `AviDecoder.BadRiffNoAvi` | format/riff/avi.go:239-241 | A decode that visits a RIFF chunk of another form type fails |
| `AviDecoder.DecodeShape` | format/riff/avi.go:217-603 | A successful decode emits one stream output per strf and one handled chunk per chunk; the main header's stream count plays no part |
| `AviDecoder.Decoder.constructor` | format/riff/avi.go:223-227 | A new decoder starts with no stream lists, streams or idx1 entries, movi position 0 and an empty form type |
| `AviDecoder.Decoder.HandleChunk` | format/riff/avi.go:237-531 | Handling a chunk moves the decoder's fields to the step function's new state, or leaves them unchanged on error |
| `AviDecoder.Decoder.HandleStrh` | format/riff/avi.go:313-345 | strh records kind and handler into the enclosing stream list, as the step function does |
| `AviDecoder.Decoder.HandleStrf` | format/riff/avi.go:347-440 | strf appends a stream and links it, as the step function does |
| `AviDecoder.Decoder.HandleIndx` | format/riff/avi.go:442-473 | indx extends the linked stream's indexes, as the step function does |
| `AviDecoder.Decoder.HandleOther` | format/riff/avi.go:504-529 | Text, `ix##`, stream and raw chunks are handled as the step function does |
| `AviDecoder.Decoder.Walk` | format/riff/avi.go:228-532 | Visiting the chunks in order gives the fold of the step function; the first error ends the walk |
| `AviSamples.SubIndexAt` | format/riff/avi.go:546-551 | Definition of following one super-index target; stated by `SuperIndexSingle`, implemented by `FollowSubIndex` |
| `AviSamples.SuperIndexSamples` | format/riff/avi.go:541-555 | Definition of following the super index; stated by `SuperIndexSamplesAppend`, implemented by `FollowSuperIndex` |
| `AviSamples.SelectRanges` | format/riff/avi.go:569-597 | Definition of the priority rule; stated by `SuperIndexWins`, `IxChunksBeforeIdx1`, `Idx1Fallback` and `NoIndexNoSamples` |
| `AviSamples.StreamSamples` | format/riff/avi.go:540-598 | Definition of one stream's output; stated by `SuperIndexWins`, `IxChunksBeforeIdx1`, `Idx1Fallback` and `NoIndexNoSamples`, implemented by `EmitStream` |
| `AviSamples.Emission` | format/riff/avi.go:538-600 | Definition of the per-stream output; stated by `EmissionShape` and `OutOfRangeIdx1Ignored`, implemented by `EmitStreams` |
| `AviSamples.SuperIndexSamplesAppend` | format/riff/avi.go:542-555 | Following a super index equals decoding its targets one at a time and concatenating, in reference order |
| `AviSamples.SuperIndexSingle` | format/riff/avi.go:546-551 | A one-entry super index yields the standard index decoded at its target, after its 8-byte type and size |
| `AviSamples.Idx1RangesAppend` | format/riff/avi.go:585-596 | The idx1 ranges of a stream distribute over concatenated entry lists |
| `AviSamples.Idx1RangesMembers` | format/riff/avi.go:585-596 | A range is among stream si's idx1 ranges exactly when some entry of stream si gives it, at `moviListPos + offset + 32` |
| `AviSamples.Idx1RangesOtherStreams` | format/riff/avi.go:588-590 | Entries of other streams contribute nothing |
| `AviSamples.DecodeSampleListShape` | format/riff/avi.go:559-567 | Each selected range becomes one sample, in order. It goes to the codec exactly when non-empty, decoding is on and the stream has a codec; every range must lie in the file |
| `AviSamples.SuperIndexWins` | format/riff/avi.go:569-578 | When the super index yields ranges, the stream's output is exactly those ranges decoded as samples, labelled as super-index samples, whatever the ix## ranges and idx1 entries hold; it fails exactly when decoding those samples fails |
| `AviSamples.IxChunksBeforeIdx1` | format/riff/avi.go:579-584 | Without super-index ranges, non-empty ix## ranges are the samples, whatever idx1 holds |
| `AviSamples.Idx1Fallback` | format/riff/avi.go:585-596 | With neither, the samples are stream si's idx1 ranges `(M + O*8 + 32, L*8)` in file order |
| `AviSamples.NoIndexNoSamples` | format/riff/avi.go:569-597 | A stream no index names has an empty sample list, not an error |
| `AviSamples.EmitFromShape` | format/riff/avi.go:538-600 | Emission from stream si on yields one output per remaining stream, each that stream's own selection |
| `AviSamples.EmissionShape` | format/riff/avi.go:538-600 | Emission yields one output per stream found, in declaration order |
| `AviSamples.OutOfRangeIdx1Ignored` | format/riff/avi.go:585-590 | An idx1 entry whose stream number has no stream changes nothing |
| `AviSamples.FollowSubIndex` | format/riff/avi.go:546-551 | Reading the index at one super-index target returns its ranges, or the range or read error |
| `AviSamples.FollowSuperIndex` | format/riff/avi.go:541-555 | The loop over super-index targets returns the concatenation of their indexes |
| `AviSamples.CollectIdx1` | format/riff/avi.go:586-595 | The loop that skips other streams' idx1 entries returns stream si's idx1 ranges |
| `AviSamples.DecodeSamplesOf` | format/riff/avi.go:574-595 | The sample loop returns the sample list of the selected ranges |
| `AviSamples.EmitStream` | format/riff/avi.go:540-598 | One stream of the emission loop returns that stream's selection and samples |
| `AviDecoder.EmitStreams` | format/riff/avi.go:538-600 | The stream loop returns the per-stream emission in declaration order |
| `AviDecoder.Decode` | format/riff/avi.go:217-603 | Walk, RIFF form check and emission give the whole decode |
| `BookmarkReader.Signed` | format/bookmark/bookmark.go:190-197 | Two's-complement reading: in range, and values below half kept, others reduced by the full width |
| `BookmarkReader.ByteAtAligned` | format/bookmark/bookmark.go:183-184 | At a byte boundary the 8 bits read are the stored byte |
| `BookmarkReader.AlignedU32` | format/bookmark/bookmark.go:183-184 | At a byte boundary a 32-bit read is the little-endian byte read |
| `BookmarkReader.AlignedBytes` | format/bookmark/bookmark.go:186-189 | At a byte boundary n bytes are read verbatim |
| `BookmarkReader.StraddlingByte` | format/bookmark/bookmark.go:227-236 | One bit off a boundary, a byte read is the low 7 bits of one byte followed by the top bit of the next |
| `BookmarkRecord.DecodeRecord` | format/bookmark/bookmark.go:181-239 | Definition of record decoding; stated by `TextPayload`, `BooleanReadsNoPayload`, `UnknownTypeReadsNoPayload`, `ArrayCount`, `DictionaryCount`, `RelativeUrlOffsetsAsIs` and `FuelMonotone` |
| `BookmarkRecord.CalcOffset` | format/bookmark/bookmark.go:241-246 | An offset designates the bit position 8 bytes per unit past the 48-byte header, and the header end exactly for offset 0 |
| `BookmarkRecord.CalcOffsetInjective` | format/bookmark/bookmark.go:246 | Distinct offsets designate distinct positions |
| `BookmarkRecord.TextPayload` | format/bookmark/bookmark.go:186-187 | A string or URL record decodes exactly when `length` bytes follow its head, and holds those bytes |
| `BookmarkRecord.BooleanReadsNoPayload` | format/bookmark/bookmark.go:204-205 | A boolean record reads nothing after its head; its type is its value |
| `BookmarkRecord.UnknownTypeReadsNoPayload` | format/bookmark/bookmark.go:184-237 | A type outside the table reads nothing after its head |
| `BookmarkRecord.ArrayCount` | format/bookmark/bookmark.go:206-210 | An array has `length / 4` elements; element j is the record at the offset in the j-th 4-byte slot |
| `BookmarkRecord.DictionaryCount` | format/bookmark/bookmark.go:211-222 | A dictionary also has `length / 4` elements, each reading a key and a value offset from its 8-byte slot |
| `BookmarkRecord.RelativeUrlOffsetsAsIs` | format/bookmark/bookmark.go:227-236 | Relative-URL base and suffix are read at their offsets taken as bit positions, not through calcOffset |
| `BookmarkRecord.FuelMonotone` | format/bookmark/bookmark.go:181-239 | The depth bound only cuts decodes off: a record decoded with some depth decodes the same with more |
| `BookmarkRecord.SelfReferenceRunsOut` | format/bookmark/bookmark.go:206-210 | An array whose element points back at itself never decodes, at any depth |
| `Bookmark.DecodeHeader` | format/bookmark/bookmark.go:255-263 | Definition of the header checks; stated by `HeaderChecks` |
| `Bookmark.ReadTocHeader` | format/bookmark/bookmark.go:156-169 | Definition of the TOC header read; stated by `TocHeaderShape` |
| `Bookmark.ReadEntry` | format/bookmark/bookmark.go:297-314 | Definition of one TOC entry; stated by `EntryShape` |
| `Bookmark.DecodeFrom` | format/bookmark/bookmark.go:267-318 | Definition of the TOC loop; stated by `BookmarkChain`, `BookmarkEntries`, `BudgetMonotone` and `SelfLinkedTocFails` |
| `Bookmark.DecodeBookmarkData` | format/bookmark/bookmark.go:248-321 | Definition of the whole bookmark decode; stated by `NoFirstToc` and `BookmarkChain`, implemented by `DecodeBookmark` |
| `Bookmark.HeaderChecks` | format/bookmark/bookmark.go:255-263 | The header decodes exactly when its 52 bytes are there, the magic is "book" or "alis" and `header_size` is 48. With 4 bytes and a wrong magic it fails with `BadMagic`; with 16 bytes, a right magic and another `header_size`, with `BadHeaderSize`; every other failure is `ShortRead` |
| `Bookmark.TocHeaderShape` | format/bookmark/bookmark.go:156-169 | A TOC header decodes exactly when its 20 bytes are there and its magic is `0xfffffffe`; its entries start 160 bits after it |
| `Bookmark.EntryShape` | format/bookmark/bookmark.go:297-314 | An entry has a key string exactly when key bit 31 is set, read at `calcOffset(key & 0x7fffffff)`; its record is read at `calcOffset(offset_to_record)` |
| `Bookmark.TocEntriesCount` | format/bookmark/bookmark.go:293-316 | A TOC lists `num_entries` entries, entry j read 12*j bytes after the TOC header |
| `Bookmark.EntriesOfAllAppend` | format/bookmark/bookmark.go:286-317 | The entries of one more TOC are appended to those before |
| `Bookmark.BookmarkChain` | format/bookmark/bookmark.go:263-280 | The TOCs read are the chain from `first_toc_offset`. Every next offset but the last is nonzero and leads to the next TOC; the last is 0; the chain is empty exactly when the first offset is 0 |
| `Bookmark.BookmarkEntries` | format/bookmark/bookmark.go:282-317 | The i-th entry list holds the entries of TOCs 0..i, extending list i-1 with the new TOC's entries |
| `Bookmark.NoFirstToc` | format/bookmark/bookmark.go:263-267 | A first TOC offset of 0 gives no TOC |
| `Bookmark.BudgetMonotone` | format/bookmark/bookmark.go:267-280 | The TOC budget only cuts the walk off: a result with some budget stays the same with more |
| `Bookmark.SelfLinkedTocFails` | format/bookmark/bookmark.go:267-280 | A TOC whose next offset leads back to itself never ends the walk |
| `Bookmark.ReadEntries` | format/bookmark/bookmark.go:293-316 | The loop over k returns the TOC's entries |
| `Bookmark.CollectEntries` | format/bookmark/bookmark.go:286-317 | The loop over collected TOC headers returns all their entries in order |
| `Bookmark.DecodeBookmark` | format/bookmark/bookmark.go:248-321 | The TOC loop, with its nested entry loops, returns the bookmark decode |

## Left out

- The bit reader and field-emission API of fq (fields, names, symbolic descriptions, `RangeFn`, `SeekAbs`): reads are functions of an immutable byte sequence, and positions are integers. The decoded field tree is not produced; the model keeps what decides control flow and results.
- `RangeFn`'s own bounds handling is not part of this model. A super-index target or a sample range that does not lie wholly inside the file is modelled as a fatal `RangeOutOfBounds`, checked before anything in it is read. This holds for raw samples too, where the code only reads the remaining bits of the range.
- The RIFF tree walker `riffDecode` is not part of this model. Its walk is the input: the chunks it visits, each with its tag, the enclosing stream list, its payload position and its payload. `riffIsStringChunkID` is not part of this model either; its text tags are the `stringIds` option.
- The external codecs (AVC, HEVC, MP3, FLAC): only the choice between codec and raw bits is modelled, and the codec argument is not.
- Format registration, `init` and the embedded documentation: they hold no decoding logic. `DecodeSamples` is a boolean option.
- The fields of avih, dmlh, most of strh and vprp, and iavs: they keep no state; only their byte widths are modelled, as short-read checks.
- The format tag constants of fq's format package are not part of this model. The H.264 and HEVC compression tags are their own spellings; MP3 is WAVE tag 0x0055 and FLAC 0xF1AC.
- Text, as in tags and the bookmark magic, is read one character per byte. UTF-8 decoding is not modelled; for the ASCII tags compared against it reads the same.
- Floating point and dates in bookmark records: F32, F64 and the date are kept as their raw bytes.
- fq's force mode, where failed asserts do not stop decoding: asserts and short reads end the decode with an error.
- Pointers between `aviStrl` and `aviStream` are indices into the decoder's sequences; aliasing is not modelled.
- Termination bounds: record nesting has a depth budget and the TOC chain a budget of TOCs. Where the original would recurse or loop forever (a self-referencing record or TOC), the model stops with `OutOfFuel`.
- AviIndex.ChunkIndexShape: states a range's start only where `(base + offset) * 8` fits in int64. Beyond that the function computes the int64 wrap-around, which no lemma describes.
- AviIndex.SuperIndexShape: likewise states a range's start only where `offset * 8` fits in int64.
