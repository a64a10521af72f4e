/** The stream format chunk (strf) and the fixed-layout header chunks of AVI:
    what each reads, how large its trailing data is, and which codec group a
    stream's payload is handed to. */
module AviStreamFormat {
  import opened Wrappers
  import opened Bytes
  import opened AviIndex

  /** The external codec groups a stream can be mapped to (aviStream.format). */
  datatype Codec = AvcAu | HevcAu | Mp3Frame | FlacFrame

  /** BMP compression tags of H.264 and of HEVC. */
  const AvcTags: set<string> := {
    "H264", "h264", "X264", "x264", "avc1", "DAVC", "SMV2",
    "VSSH", "Q264", "V264", "GAVC", "UMSV", "tshd", "INMC"
  }
  const HevcTags: set<string> := {"HEVC", "H265"}

  /** WAVE format tags of MP3 and of FLAC. */
  const WavTagMp3: nat := 0x0055
  const WavTagFlac: nat := 0xF1AC

  /** BITMAPINFOHEADER, WAVEFORMATEX without cb_size, and DVINFO. */
  const BitmapInfoHeaderSize := 40
  const WaveFormatSize := 16
  const DvInfoSize := 32
  /** WAVEFORMATEX's own size, which cb_size is taken to include. */
  const WaveFormatExSize := 18

  function VideoCodec(compression: string): Option<Codec> {
    if compression in AvcTags then Some(AvcAu)
    else if compression in HevcTags then Some(HevcAu)
    else None
  }

  function AudioCodec(formatTag: nat): Option<Codec> {
    if formatTag == WavTagMp3 then Some(Mp3Frame)
    else if formatTag == WavTagFlac then Some(FlacFrame)
    else None
  }

  /** What a strf chunk contributes: the stream's codec mapping and the length
      in bits of the trailing "extra" field. */
  datatype StrfInfo = StrfInfo(format: Option<Codec>, extraBits: nat)

  /** BITMAPINFOHEADER: the extra field is the payload's bits less bi_size * 8
      less 64, read only when positive, and must fit in what is left. */
  function ParseVideoFormat(p: seq<byte>): Result<StrfInfo, AviError> {
    if |p| < BitmapInfoHeaderSize then Err(ShortRead)
    else
      var extra := |p| * 8 - U32(p, 0) * 8 - 2 * 32;
      if extra > 0 && extra > (|p| - BitmapInfoHeaderSize) * 8 then Err(ShortRead)
      else Ok(StrfInfo(VideoCodec(Tag(p, 16)), if extra > 0 then extra else 0))
  }

  /** WAVEFORMATEX: cb_size is read only when 16 more bits remain, and extra
      bytes follow only when it exceeds 18. */
  function ParseAudioFormat(p: seq<byte>): Result<StrfInfo, AviError> {
    if |p| < WaveFormatSize then Err(ShortRead)
    else if |p| < WaveFormatSize + 2 then Ok(StrfInfo(AudioCodec(U16(p, 0)), 0))
    else
      var cbSize := U16(p, WaveFormatSize);
      if cbSize <= WaveFormatExSize then Ok(StrfInfo(AudioCodec(U16(p, 0)), 0))
      else if |p| - (WaveFormatSize + 2) < cbSize - WaveFormatExSize then Err(ShortRead)
      else Ok(StrfInfo(AudioCodec(U16(p, 0)), (cbSize - WaveFormatExSize) * 8))
  }

  /** A strf chunk, by the kind its enclosing strh declared ("" outside a stream list). */
  function ParseStrf(kind: string, p: seq<byte>): (r: Result<StrfInfo, AviError>)
    ensures r.Ok? && r.value.format.Some? ==> kind == "vids" || kind == "auds"
    ensures kind != "vids" && kind != "auds" && kind != "iavs" ==> r == Ok(StrfInfo(None, 0))
  {
    match kind
    case "vids" => ParseVideoFormat(p)
    case "auds" => ParseAudioFormat(p)
    case "iavs" => if |p| < DvInfoSize then Err(ShortRead) else Ok(StrfInfo(None, 0))
    case _ => Ok(StrfInfo(None, 0))
  }

  /** A stream gets a codec group exactly when it is video with one of the
      listed H.264 or HEVC compression tags, or audio with the MP3 or FLAC
      format tag; every other tag and kind leaves it without one. */
  lemma StrfCodecMapping(kind: string, p: seq<byte>)
    requires ParseStrf(kind, p).Ok?
    ensures var f := ParseStrf(kind, p).value.format;
      && (f == Some(AvcAu) <==> kind == "vids" && |p| >= 20 && Tag(p, 16) in AvcTags)
      && (f == Some(HevcAu) <==> kind == "vids" && |p| >= 20 && Tag(p, 16) in HevcTags)
      && (f == Some(Mp3Frame) <==> kind == "auds" && |p| >= 2 && U16(p, 0) == WavTagMp3)
      && (f == Some(FlacFrame) <==> kind == "auds" && |p| >= 2 && U16(p, 0) == WavTagFlac)
  {
    assert AvcTags !! HevcTags;
  }

  /** Video: extra = bits at the start - bi_size * 8 - 64, emitted only when
      positive; it fits in what follows the 40 header bytes exactly when
      bi_size is at least 32. */
  lemma VideoExtraSize(p: seq<byte>)
    ensures ParseStrf("vids", p).Ok? <==> |p| >= BitmapInfoHeaderSize && U32(p, 0) >= 32
    ensures ParseStrf("vids", p).Ok? ==>
      var extra := |p| * 8 - U32(p, 0) * 8 - 64;
      ParseStrf("vids", p).value.extraBits == if extra > 0 then extra else 0
  {
  }

  /** Audio: the chunk fails exactly when cb_size is present, exceeds 18 and
      more than the bytes after it are claimed; on success the extra field is
      (cb_size - 18) * 8 bits when cb_size is present and above 18, else empty. */
  lemma AudioExtraSize(p: seq<byte>)
    ensures ParseStrf("auds", p).Ok? <==>
      |p| >= 16 && (|p| < 18 || U16(p, 16) <= 18 || |p| - 18 >= U16(p, 16) - 18)
    ensures ParseStrf("auds", p).Ok? ==>
      ParseStrf("auds", p).value ==
        StrfInfo(AudioCodec(U16(p, 0)), if |p| >= 18 && U16(p, 16) > 18 then (U16(p, 16) - 18) * 8 else 0)
  {
  }

  /** Audio: cb_size = 18 gives no extra bytes and cb_size = 30 gives 12. */
  lemma AudioExtraExamples(p: seq<byte>)
    requires |p| >= 30
    ensures U16(p, 16) == 18 ==> ParseStrf("auds", p) == Ok(StrfInfo(AudioCodec(U16(p, 0)), 0))
    ensures U16(p, 16) == 30 ==> ParseStrf("auds", p) == Ok(StrfInfo(AudioCodec(U16(p, 0)), 12 * 8))
  {
    AudioExtraSize(p);
  }

  /** Audio: without room for cb_size the chunk still succeeds, with no extra. */
  lemma AudioWithoutCbSize(p: seq<byte>)
    requires 16 <= |p| < 18
    ensures ParseStrf("auds", p) == Ok(StrfInfo(AudioCodec(U16(p, 0)), 0))
  {
  }

  // ---------------------------------------------------------------------------
  // Fixed-layout chunks that keep no state

  const AvihSize := 56   // 3 x u32, flags, 6 x u32, 16 reserved bytes
  const DmlhSize := 248  // total_frames and 61 reserved u32
  const StrhSize := 56   // type, handler, flags, 2 x u16, 8 x u32, frame rectangle
  const VprpFixedSize := 36
  const VprpFieldInfoSize := 32

  /** Bytes that a fixed-layout chunk reads; vprp adds 32 bytes per field_info
      record, counted by nb_field_per_frame at byte 32. */
  function FixedChunkSize(id: string, p: seq<byte>): nat
    requires id in {"avih", "dmlh", "vprp"}
  {
    match id
    case "avih" => AvihSize
    case "dmlh" => DmlhSize
    case _ => if |p| < VprpFixedSize then VprpFixedSize else VprpFixedSize + VprpFieldInfoSize * U32(p, 32)
  }
}
