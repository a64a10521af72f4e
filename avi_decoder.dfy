/** The AVI chunk handler and the decode around it (aviDecode).

    The RIFF tree walker is not part of this model: it is represented by the
    sequence of chunks it visits, in visiting order, each with its tag, the
    data its parent list handler returned (the innermost enclosing strl, if
    any), the byte position of its payload in the file and the payload bytes.
    The references the original keeps from a stream list to its stream, and
    the streams themselves, are indices into the decoder's sequences. */
module AviDecoder {
  import opened Wrappers
  import opened Bytes
  import opened AviChunkId
  import opened AviIndex
  import opened AviStreamFormat
  import opened AviSamples

  const AviRiffType := "AVI "

  /** A stream list: the kind and handler its strh declared and the stream its strf created. */
  datatype AviStrl = AviStrl(typ: string, handler: string, stream: Option<nat>)

  /** The data of the innermost enclosing list: a stream list, or nothing. */
  datatype Context = NoContext | StrlContext(strl: nat)

  datatype ChunkEvent = ChunkEvent(id: string, context: Context, pos: nat, payload: seq<byte>)

  /** What a leaf chunk's payload became: header fields, a text value, raw
      bytes, or a sample handed to a codec. */
  datatype PayloadUse = HeaderFields | TextValue | RawData | CodecData(codec: Codec)

  /** A list chunk is descended into with the data it yields to its
      children; any other chunk is a leaf. */
  datatype Handled = Container(data: Context) | Leaf(use: PayloadUse)

  /** The decoder's input options: whether samples go to their codecs, and
      the tags of the RIFF text chunks (INFO and the like). */
  datatype Options = Options(decodeSamples: bool, stringIds: set<string>)

  /** Everything the handlers accumulate while the tree is walked. */
  datatype DecoderState = DecoderState(strls: seq<AviStrl>, streams: seq<AviStream>,
                                       idx1Samples: seq<Idx1Sample>, moviListPos: int, riffType: string)

  const Initial := DecoderState([], [], [], 0, "")

  /** Every stream a stream list refers to exists. */
  predicate Linked(st: DecoderState) {
    forall k :: 0 <= k < |st.strls| && st.strls[k].stream.Some? ==> st.strls[k].stream.value < |st.streams|
  }

  /** The stream list a chunk sits in, when its parent is one. */
  function TopStrl(st: DecoderState, c: Context): Option<nat> {
    if c.StrlContext? && c.strl < |st.strls| then Some(c.strl) else None
  }

  // ---------------------------------------------------------------------------
  // The handler, one chunk at a time

  function StepRiff(st: DecoderState, p: seq<byte>): Result<(DecoderState, Handled), AviError> {
    if |p| < 4 then Err(ShortRead)
    else
      var t := Tag(p, 0);
      if t != AviRiffType then Err(WrongRiffType(t))
      else Ok((st.(riffType := t), Container(NoContext)))
  }

  /** A strl list opens a new stream list; a movi list records the position
      just after its list type. */
  function StepList(st: DecoderState, pos: nat, p: seq<byte>): Result<(DecoderState, Handled), AviError> {
    if |p| < 4 then Err(ShortRead)
    else
      var t := Tag(p, 0);
      if t == "strl" then
        Ok((st.(strls := st.strls + [AviStrl("", "", None)]), Container(StrlContext(|st.strls|))))
      else if t == "movi" then Ok((st.(moviListPos := (pos + 4) * 8), Container(NoContext)))
      else Ok((st, Container(NoContext)))
  }

  function StepStrh(st: DecoderState, c: Context, p: seq<byte>): Result<(DecoderState, Handled), AviError> {
    if |p| < StrhSize then Err(ShortRead)
    else
      match TopStrl(st, c)
      case None => Ok((st, Leaf(HeaderFields)))
      case Some(k) =>
        var strl := st.strls[k].(typ := Tag(p, 0), handler := Tag(p, 4));
        Ok((st.(strls := st.strls[k := strl]), Leaf(HeaderFields)))
  }

  function StepStrf(st: DecoderState, c: Context, p: seq<byte>): Result<(DecoderState, Handled), AviError> {
    var top := TopStrl(st, c);
    var kind := if top.Some? then st.strls[top.value].typ else "";
    var info :- ParseStrf(kind, p);
    var strls := if top.Some? then st.strls[top.value := st.strls[top.value].(stream := Some(|st.streams|))]
                 else st.strls;
    Ok((st.(strls := strls, streams := st.streams + [AviStream(info.format, [], [])]), Leaf(HeaderFields)))
  }

  function StepIndx(st: DecoderState, c: Context, p: seq<byte>): Result<(DecoderState, Handled), AviError> {
    var entries :- SuperIndex(p);
    var top := TopStrl(st, c);
    if top.Some? && st.strls[top.value].stream.Some? && st.strls[top.value].stream.value < |st.streams| then
      var j := st.strls[top.value].stream.value;
      var s := st.streams[j].(indexes := st.streams[j].indexes + entries);
      Ok((st.(streams := st.streams[j := s]), Leaf(HeaderFields)))
    else Ok((st, Leaf(HeaderFields)))
  }

  /** Whether a stream chunk is handed to its stream's codec. */
  predicate GoesToCodec(st: DecoderState, c: ChunkId, p: seq<byte>, opts: Options) {
    && |p| > 0 && opts.decodeSamples && IsStreamType(c.kind)
    && c.nr < |st.streams| && st.streams[c.nr].format.Some?
  }

  /** Text chunks, then ix## indexes, then stream data, then raw data. */
  function StepOther(st: DecoderState, id: string, p: seq<byte>, opts: Options)
    : Result<(DecoderState, Handled), AviError>
  {
    if id in opts.stringIds then Ok((st, Leaf(TextValue)))
    else
      var c := ParseChunkID(id);
      if c.kind == Index then
        var rs :- ChunkIndex(p);
        if c.nr < |st.streams| then
          var s := st.streams[c.nr].(ixSamples := st.streams[c.nr].ixSamples + rs);
          Ok((st.(streams := st.streams[c.nr := s]), Leaf(HeaderFields)))
        else Ok((st, Leaf(HeaderFields)))
      else if GoesToCodec(st, c, p, opts) then Ok((st, Leaf(CodecData(st.streams[c.nr].format.value))))
      else Ok((st, Leaf(RawData)))
  }

  /** The chunk handler: the new state and how the chunk was treated. */
  function Step(st: DecoderState, ev: ChunkEvent, opts: Options): Result<(DecoderState, Handled), AviError> {
    var p := ev.payload;
    if ev.id == "RIFF" then StepRiff(st, p)
    else if ev.id == "LIST" then StepList(st, ev.pos, p)
    else if ev.id == "idx1" then Ok((st.(idx1Samples := st.idx1Samples + Idx1Entries(p)), Leaf(HeaderFields)))
    else if ev.id in {"avih", "dmlh", "vprp"} then
      if |p| < FixedChunkSize(ev.id, p) then Err(ShortRead) else Ok((st, Leaf(HeaderFields)))
    else if ev.id == "strh" then StepStrh(st, ev.context, p)
    else if ev.id == "strf" then StepStrf(st, ev.context, p)
    else if ev.id == "indx" then StepIndx(st, ev.context, p)
    else StepOther(st, ev.id, p, opts)
  }

  /** A successful result with `hs` in front of its handled chunks. */
  function After(hs: seq<Handled>, r: Result<(DecoderState, seq<Handled>), AviError>)
    : Result<(DecoderState, seq<Handled>), AviError>
  {
    match r
    case Ok(v) => Ok((v.0, hs + v.1))
    case Err(e) => Err(e)
  }

  /** The handler applied to the chunks in visiting order; the first error ends the decode. */
  function Steps(st: DecoderState, evs: seq<ChunkEvent>, opts: Options): Result<(DecoderState, seq<Handled>), AviError>
    decreases |evs|
  {
    if evs == [] then Ok((st, []))
    else
      var first :- Step(st, evs[0], opts);
      After([first.1], Steps(first.0, evs[1..], opts))
  }

  datatype AviOutput = AviOutput(chunks: seq<Handled>, streams: seq<StreamOut>)

  /** The whole decode: the walk, the RIFF form check, then the per-stream output. */
  function AviDecode(file: seq<byte>, evs: seq<ChunkEvent>, opts: Options): Result<AviOutput, AviError> {
    var walked :- Steps(Initial, evs, opts);
    var st := walked.0;
    if st.riffType != AviRiffType then Err(WrongRiffType(st.riffType))
    else
      var outs :- Emission(file, st.streams, st.idx1Samples, st.moviListPos, opts.decodeSamples);
      Ok(AviOutput(walked.1, outs))
  }

  function CountStrf(evs: seq<ChunkEvent>): nat {
    if evs == [] then 0 else (if evs[0].id == "strf" then 1 else 0) + CountStrf(evs[1..])
  }

  function Idx1Of(evs: seq<ChunkEvent>): seq<Idx1Sample> {
    if evs == [] then [] else (if evs[0].id == "idx1" then Idx1Entries(evs[0].payload) else []) + Idx1Of(evs[1..])
  }

  // ---------------------------------------------------------------------------
  // Properties of one step

  /** Only strf creates a stream, only a strl list creates a stream list, and
      only idx1 adds idx1 entries: to the end, in order. */
  lemma StepGrowth(st: DecoderState, ev: ChunkEvent, opts: Options)
    requires Step(st, ev, opts).Ok?
    ensures var st' := Step(st, ev, opts).value.0;
      && |st'.streams| == |st.streams| + (if ev.id == "strf" then 1 else 0)
      && |st'.strls| == |st.strls| + (if ev.id == "LIST" && Tag(ev.payload, 0) == "strl" then 1 else 0)
      && st'.idx1Samples == st.idx1Samples + (if ev.id == "idx1" then Idx1Entries(ev.payload) else [])
  {
  }

  /** Every stream a stream list refers to exists, after every step. */
  lemma StepKeepsLinked(st: DecoderState, ev: ChunkEvent, opts: Options)
    requires Linked(st) && Step(st, ev, opts).Ok?
    ensures Linked(Step(st, ev, opts).value.0)
  {
    StepGrowth(st, ev, opts);
  }

  /** The strf of a stream list reads its format by the kind its strh set,
      and links the list to the stream it appends. */
  lemma StrhThenStrf(st: DecoderState, k: nat, strh: seq<byte>, strf: seq<byte>, pos: nat, pos': nat, opts: Options)
    requires k < |st.strls| && |strh| >= StrhSize
    requires ParseStrf(Tag(strh, 0), strf).Ok?
    ensures Step(st, ChunkEvent("strh", StrlContext(k), pos, strh), opts).Ok?
    ensures var st1 := Step(st, ChunkEvent("strh", StrlContext(k), pos, strh), opts).value.0;
      && Step(st1, ChunkEvent("strf", StrlContext(k), pos', strf), opts).Ok?
      && var st2 := Step(st1, ChunkEvent("strf", StrlContext(k), pos', strf), opts).value.0;
      && st2.strls[k] == AviStrl(Tag(strh, 0), Tag(strh, 4), Some(|st.streams|))
      && st2.streams == st.streams + [AviStream(ParseStrf(Tag(strh, 0), strf).value.format, [], [])]
  {
  }

  /** A strf outside a stream list still creates a stream, with no format,
      and leaves every stream list as it was. */
  lemma OrphanStrf(st: DecoderState, pos: nat, p: seq<byte>, opts: Options)
    ensures Step(st, ChunkEvent("strf", NoContext, pos, p), opts)
         == Ok((st.(streams := st.streams + [AviStream(None, [], [])]), Leaf(HeaderFields)))
  {
  }

  /** A super index extends the indexes of the stream its list links to, and
      touches no other stream; without a linked stream it is read and dropped. */
  lemma IndxTargetsLinkedStream(st: DecoderState, ev: ChunkEvent, opts: Options)
    requires Linked(st) && ev.id == "indx" && Step(st, ev, opts).Ok?
    ensures SuperIndex(ev.payload).Ok?
    ensures var st' := Step(st, ev, opts).value.0;
      && |st'.streams| == |st.streams| && st'.strls == st.strls
      && forall j :: 0 <= j < |st.streams| ==>
        st'.streams[j] == if TopStrl(st, ev.context).Some? && st.strls[TopStrl(st, ev.context).value].stream == Some(j)
                          then st.streams[j].(indexes := st.streams[j].indexes + SuperIndex(ev.payload).value)
                          else st.streams[j]
  {
  }

  /** An ix## chunk extends the ix samples of stream ## only, when that
      stream exists; its entries are read either way. */
  lemma IxTargetsNumberedStream(st: DecoderState, ev: ChunkEvent, opts: Options)
    requires ev.id !in {"RIFF", "LIST", "idx1", "avih", "dmlh", "vprp", "strh", "strf", "indx"}
    requires ev.id !in opts.stringIds && ParseChunkID(ev.id).kind == Index
    ensures Step(st, ev, opts).Ok? <==> ChunkIndex(ev.payload).Ok?
    ensures Step(st, ev, opts).Ok? ==>
      var st' := Step(st, ev, opts).value.0;
      var nr := ParseChunkID(ev.id).nr;
      && st'.strls == st.strls && |st'.streams| == |st.streams|
      && forall j :: 0 <= j < |st.streams| ==>
        st'.streams[j] == if j == nr then st.streams[j].(ixSamples := st.streams[j].ixSamples + ChunkIndex(ev.payload).value)
                          else st.streams[j]
  {
  }

  /** A stream chunk goes to a codec exactly when it is non-empty, decoding
      was asked for, its tag is ##db, ##dc or ##wb, stream ## exists and has a
      format — and then to that stream's format. */
  lemma StreamChunkUse(st: DecoderState, ev: ChunkEvent, opts: Options)
    requires ev.id !in {"RIFF", "LIST", "idx1", "avih", "dmlh", "vprp", "strh", "strf", "indx"}
    requires ev.id !in opts.stringIds && ParseChunkID(ev.id).kind != Index
    ensures Step(st, ev, opts).Ok? && Step(st, ev, opts).value.0 == st
    ensures var c := ParseChunkID(ev.id);
      (Step(st, ev, opts).value.1.Leaf? && Step(st, ev, opts).value.1.use.CodecData?)
      <==> (|ev.payload| > 0 && opts.decodeSamples && c.ok && IsStreamType(c.kind)
            && c.nr < |st.streams| && st.streams[c.nr].format.Some?)
    ensures var c := ParseChunkID(ev.id);
      Step(st, ev, opts).value.1 == if GoesToCodec(st, c, ev.payload, opts)
                                    then Leaf(CodecData(st.streams[c.nr].format.value)) else Leaf(RawData)
  {
  }

  /** A chunk of text tag is a text value whatever its payload, and changes nothing. */
  lemma TextChunk(st: DecoderState, ev: ChunkEvent, opts: Options)
    requires ev.id !in {"RIFF", "LIST", "idx1", "avih", "dmlh", "vprp", "strh", "strf", "indx"}
    requires ev.id in opts.stringIds
    ensures Step(st, ev, opts) == Ok((st, Leaf(TextValue)))
  {
  }

  /** The outer RIFF form fails at once unless it is "AVI ". */
  lemma RiffTypeChecked(st: DecoderState, pos: nat, p: seq<byte>, opts: Options)
    ensures Step(st, ChunkEvent("RIFF", NoContext, pos, p), opts).Ok?
        <==> |p| >= 4 && Tag(p, 0) == AviRiffType
  {
  }

  // ---------------------------------------------------------------------------
  // Properties of the whole walk

  /** A walk over a nonempty list is its first step followed by the rest. */
  lemma StepsUnfold(st: DecoderState, evs: seq<ChunkEvent>, opts: Options)
    requires evs != [] && Steps(st, evs, opts).Ok?
    ensures Step(st, evs[0], opts).Ok?
    ensures var rest := Steps(Step(st, evs[0], opts).value.0, evs[1..], opts);
      && rest.Ok?
      && Steps(st, evs, opts).value.0 == rest.value.0
      && |Steps(st, evs, opts).value.1| == 1 + |rest.value.1|
  {
  }

  lemma {:induction false} StepsStreamCount(st: DecoderState, evs: seq<ChunkEvent>, opts: Options)
    requires Steps(st, evs, opts).Ok?
    ensures |Steps(st, evs, opts).value.0.streams| == |st.streams| + CountStrf(evs)
    ensures |Steps(st, evs, opts).value.1| == |evs|
    decreases |evs|
  {
    if evs != [] {
      StepsUnfold(st, evs, opts);
      StepGrowth(st, evs[0], opts);
      StepsStreamCount(Step(st, evs[0], opts).value.0, evs[1..], opts);
    }
  }

  lemma {:induction false} StepsIdx1(st: DecoderState, evs: seq<ChunkEvent>, opts: Options)
    requires Steps(st, evs, opts).Ok?
    ensures Steps(st, evs, opts).value.0.idx1Samples == st.idx1Samples + Idx1Of(evs)
    decreases |evs|
  {
    if evs != [] {
      StepsUnfold(st, evs, opts);
      StepGrowth(st, evs[0], opts);
      StepsIdx1(Step(st, evs[0], opts).value.0, evs[1..], opts);
      assert st.idx1Samples + (if evs[0].id == "idx1" then Idx1Entries(evs[0].payload) else []) + Idx1Of(evs[1..])
          == st.idx1Samples + Idx1Of(evs);
    }
  }

  lemma {:induction false} StepsLinked(st: DecoderState, evs: seq<ChunkEvent>, opts: Options)
    requires Linked(st) && Steps(st, evs, opts).Ok?
    ensures Linked(Steps(st, evs, opts).value.0)
    decreases |evs|
  {
    if evs != [] {
      StepsUnfold(st, evs, opts);
      StepKeepsLinked(st, evs[0], opts);
      StepsLinked(Step(st, evs[0], opts).value.0, evs[1..], opts);
    }
  }

  /** No step changes the codec mapping of a stream that already exists. */
  lemma StepKeepsFormats(st: DecoderState, ev: ChunkEvent, opts: Options)
    requires Step(st, ev, opts).Ok?
    ensures var st' := Step(st, ev, opts).value.0;
      && |st.streams| <= |st'.streams|
      && forall j :: 0 <= j < |st.streams| ==> st'.streams[j].format == st.streams[j].format
  {
    StepGrowth(st, ev, opts);
  }

  /** A stream's codec mapping is fixed by its strf for the rest of the walk. */
  lemma {:induction false} StepsKeepFormats(st: DecoderState, evs: seq<ChunkEvent>, opts: Options)
    requires Steps(st, evs, opts).Ok?
    ensures var st' := Steps(st, evs, opts).value.0;
      && |st.streams| <= |st'.streams|
      && forall j :: 0 <= j < |st.streams| ==> st'.streams[j].format == st.streams[j].format
    decreases |evs|
  {
    if evs != [] {
      StepsUnfold(st, evs, opts);
      StepKeepsFormats(st, evs[0], opts);
      StepsKeepFormats(Step(st, evs[0], opts).value.0, evs[1..], opts);
    }
  }

  /** The walk creates one stream per strf, collects every idx1 chunk's
      entries in order, and keeps the stream references valid. */
  lemma StepsGrowth(st: DecoderState, evs: seq<ChunkEvent>, opts: Options)
    requires Linked(st) && Steps(st, evs, opts).Ok?
    ensures var st' := Steps(st, evs, opts).value.0;
      && |st'.streams| == |st.streams| + CountStrf(evs)
      && st'.idx1Samples == st.idx1Samples + Idx1Of(evs)
      && Linked(st')
      && |Steps(st, evs, opts).value.1| == |evs|
  {
    StepsStreamCount(st, evs, opts);
    StepsIdx1(st, evs, opts);
    StepsLinked(st, evs, opts);
  }

  /** Without a RIFF chunk the form type stays empty. */
  lemma {:induction false} StepsWithoutRiff(st: DecoderState, evs: seq<ChunkEvent>, opts: Options)
    requires forall i :: 0 <= i < |evs| ==> evs[i].id != "RIFF"
    requires Steps(st, evs, opts).Ok?
    ensures Steps(st, evs, opts).value.0.riffType == st.riffType
    decreases |evs|
  {
    if evs != [] {
      var first := Step(st, evs[0], opts).value;
      assert first.0.riffType == st.riffType;
      StepsWithoutRiff(first.0, evs[1..], opts);
    }
  }

  /** A decode without a RIFF chunk fails. */
  lemma NoRiffNoAvi(file: seq<byte>, evs: seq<ChunkEvent>, opts: Options)
    requires forall i :: 0 <= i < |evs| ==> evs[i].id != "RIFF"
    ensures AviDecode(file, evs, opts).Err?
  {
    if Steps(Initial, evs, opts).Ok? {
      StepsWithoutRiff(Initial, evs, opts);
    }
  }

  /** A RIFF chunk whose form type is not "AVI " ends the walk with an error,
      wherever in the walk it comes. */
  lemma {:induction false} StepsStopAtBadRiff(st: DecoderState, evs: seq<ChunkEvent>, opts: Options, i: nat)
    requires i < |evs| && evs[i].id == "RIFF"
    requires |evs[i].payload| < 4 || Tag(evs[i].payload, 0) != AviRiffType
    ensures Steps(st, evs, opts).Err?
    decreases i
  {
    if i == 0 {
      assert Step(st, evs[0], opts).Err?;
    } else {
      match Step(st, evs[0], opts)
      case Err(_) =>
      case Ok(first) =>
        assert evs[1..][i - 1] == evs[i];
        StepsStopAtBadRiff(first.0, evs[1..], opts, i - 1);
    }
  }

  /** A decode that meets a RIFF form type other than "AVI " fails. */
  lemma BadRiffNoAvi(file: seq<byte>, evs: seq<ChunkEvent>, opts: Options)
    requires exists i :: 0 <= i < |evs| && evs[i].id == "RIFF"
                         && (|evs[i].payload| < 4 || Tag(evs[i].payload, 0) != AviRiffType)
    ensures AviDecode(file, evs, opts).Err?
  {
    var i :| 0 <= i < |evs| && evs[i].id == "RIFF"
             && (|evs[i].payload| < 4 || Tag(evs[i].payload, 0) != AviRiffType);
    StepsStopAtBadRiff(Initial, evs, opts, i);
  }

  /** A successful decode emits one stream output per strf chunk, and one
      handled chunk per chunk visited. */
  lemma DecodeShape(file: seq<byte>, evs: seq<ChunkEvent>, opts: Options)
    requires AviDecode(file, evs, opts).Ok?
    ensures |AviDecode(file, evs, opts).value.streams| == CountStrf(evs)
    ensures |AviDecode(file, evs, opts).value.chunks| == |evs|
  {
    StepsGrowth(Initial, evs, opts);
    var st := Steps(Initial, evs, opts).value.0;
    EmissionShape(file, st.streams, st.idx1Samples, st.moviListPos, opts.decodeSamples);
  }

  // ---------------------------------------------------------------------------
  // The decoder object

  /** The state the chunk handler closes over, updated as chunks are visited. */
  class Decoder {
    const opts: Options
    var strls: seq<AviStrl>
    var streams: seq<AviStream>
    var idx1Samples: seq<Idx1Sample>
    var moviListPos: int
    var riffType: string

    function State(): DecoderState
      reads this
    {
      DecoderState(strls, streams, idx1Samples, moviListPos, riffType)
    }

    constructor(opts: Options)
      ensures this.opts == opts && State() == Initial
    {
      this.opts := opts;
      strls, streams, idx1Samples, moviListPos, riffType := [], [], [], 0, "";
    }

    /** Handles one chunk; on error nothing changes. */
    method HandleChunk(ev: ChunkEvent) returns (r: Result<Handled, AviError>)
      modifies this
      ensures r.Ok? ==> Step(old(State()), ev, opts) == Ok((State(), r.value))
      ensures r.Err? ==> Step(old(State()), ev, opts) == Err(r.error) && State() == old(State())
    {
      var p := ev.payload;
      if ev.id == "RIFF" {
        if |p| < 4 {
          return Err(ShortRead);
        }
        var t := Tag(p, 0);
        if t != AviRiffType {
          return Err(WrongRiffType(t));
        }
        riffType := t;
        return Ok(Container(NoContext));
      } else if ev.id == "LIST" {
        if |p| < 4 {
          return Err(ShortRead);
        }
        var t := Tag(p, 0);
        if t == "strl" {
          strls := strls + [AviStrl("", "", None)];
          return Ok(Container(StrlContext(|strls| - 1)));
        } else if t == "movi" {
          moviListPos := (ev.pos + 4) * 8;
        }
        return Ok(Container(NoContext));
      } else if ev.id == "idx1" {
        var entries := DecodeIdx1(p);
        idx1Samples := idx1Samples + entries;
        return Ok(Leaf(HeaderFields));
      } else if ev.id in {"avih", "dmlh", "vprp"} {
        if |p| < FixedChunkSize(ev.id, p) {
          return Err(ShortRead);
        }
        return Ok(Leaf(HeaderFields));
      } else if ev.id == "strh" {
        r := HandleStrh(ev.context, p);
      } else if ev.id == "strf" {
        r := HandleStrf(ev.context, p);
      } else if ev.id == "indx" {
        r := HandleIndx(ev.context, p);
      } else {
        r := HandleOther(ev.id, p);
      }
    }

    method HandleStrh(c: Context, p: seq<byte>) returns (r: Result<Handled, AviError>)
      modifies this
      ensures r.Ok? ==> StepStrh(old(State()), c, p) == Ok((State(), r.value))
      ensures r.Err? ==> StepStrh(old(State()), c, p) == Err(r.error) && State() == old(State())
    {
      if |p| < StrhSize {
        return Err(ShortRead);
      }
      var top := TopStrl(State(), c);
      if top.Some? {
        var k := top.value;
        strls := strls[k := strls[k].(typ := Tag(p, 0), handler := Tag(p, 4))];
      }
      return Ok(Leaf(HeaderFields));
    }

    method HandleStrf(c: Context, p: seq<byte>) returns (r: Result<Handled, AviError>)
      modifies this
      ensures r.Ok? ==> StepStrf(old(State()), c, p) == Ok((State(), r.value))
      ensures r.Err? ==> StepStrf(old(State()), c, p) == Err(r.error) && State() == old(State())
    {
      var top := TopStrl(State(), c);
      var kind := if top.Some? then strls[top.value].typ else "";
      var info := ParseStrf(kind, p);
      if info.Err? {
        return Err(info.error);
      }
      if top.Some? {
        strls := strls[top.value := strls[top.value].(stream := Some(|streams|))];
      }
      streams := streams + [AviStream(info.value.format, [], [])];
      return Ok(Leaf(HeaderFields));
    }

    method HandleIndx(c: Context, p: seq<byte>) returns (r: Result<Handled, AviError>)
      modifies this
      ensures r.Ok? ==> StepIndx(old(State()), c, p) == Ok((State(), r.value))
      ensures r.Err? ==> StepIndx(old(State()), c, p) == Err(r.error) && State() == old(State())
    {
      var entries := DecodeSuperIndex(p);
      if entries.Err? {
        return Err(entries.error);
      }
      var top := TopStrl(State(), c);
      if top.Some? && strls[top.value].stream.Some? && strls[top.value].stream.value < |streams| {
        var j := strls[top.value].stream.value;
        streams := streams[j := streams[j].(indexes := streams[j].indexes + entries.value)];
      }
      return Ok(Leaf(HeaderFields));
    }

    method HandleOther(id: string, p: seq<byte>) returns (r: Result<Handled, AviError>)
      modifies this
      ensures r.Ok? ==> StepOther(old(State()), id, p, opts) == Ok((State(), r.value))
      ensures r.Err? ==> StepOther(old(State()), id, p, opts) == Err(r.error) && State() == old(State())
    {
      if id in opts.stringIds {
        return Ok(Leaf(TextValue));
      }
      var c := ParseChunkID(id);
      if c.kind == Index {
        var rs := DecodeChunkIndex(p);
        if rs.Err? {
          return Err(rs.error);
        }
        if c.nr < |streams| {
          streams := streams[c.nr := streams[c.nr].(ixSamples := streams[c.nr].ixSamples + rs.value)];
        }
        return Ok(Leaf(HeaderFields));
      } else if GoesToCodec(State(), c, p, opts) {
        return Ok(Leaf(CodecData(streams[c.nr].format.value)));
      }
      return Ok(Leaf(RawData));
    }

    /** Visits the chunks in order; the first error ends the walk. */
    method Walk(evs: seq<ChunkEvent>) returns (r: Result<seq<Handled>, AviError>)
      modifies this
      ensures r.Ok? ==> Steps(old(State()), evs, opts) == Ok((State(), r.value))
      ensures r.Err? ==> Steps(old(State()), evs, opts) == Err(r.error)
    {
      var hs: seq<Handled> := [];
      var j := 0;
      assert evs[0..] == evs;
      AfterNil(Steps(State(), evs, opts));
      while j < |evs|
        invariant 0 <= j <= |evs|
        invariant Steps(old(State()), evs, opts) == After(hs, Steps(State(), evs[j..], opts))
      {
        assert evs[j..][0] == evs[j] && evs[j..][1..] == evs[j + 1..];
        var h := HandleChunk(evs[j]);
        if h.Err? {
          return Err(h.error);
        }
        AfterAfter(hs, [h.value], Steps(State(), evs[j + 1..], opts));
        hs := hs + [h.value];
        j := j + 1;
      }
      assert evs[j..] == [];
      assert hs + [] == hs;
      return Ok(hs);
    }
  }

  lemma AfterNil(r: Result<(DecoderState, seq<Handled>), AviError>)
    ensures After([], r) == r
  {
    if r.Ok? {
      assert [] + r.value.1 == r.value.1;
    }
  }

  lemma AfterAfter(xs: seq<Handled>, ys: seq<Handled>, r: Result<(DecoderState, seq<Handled>), AviError>)
    ensures After(xs, After(ys, r)) == After(xs + ys, r)
  {
    if r.Ok? {
      assert xs + (ys + r.value.1) == (xs + ys) + r.value.1;
    }
  }

  /** Emits every stream in declaration order. */
  method EmitStreams(file: seq<byte>, streams: seq<AviStream>, idx1: seq<Idx1Sample>, moviListPos: int,
                     decodeSamples: bool) returns (r: Result<seq<StreamOut>, AviError>)
    ensures r == Emission(file, streams, idx1, moviListPos, decodeSamples)
  {
    var outs: seq<StreamOut> := [];
    var si := 0;
    PrependNil(EmitFrom(file, streams, 0, idx1, moviListPos, decodeSamples));
    while si < |streams|
      invariant 0 <= si <= |streams|
      invariant Emission(file, streams, idx1, moviListPos, decodeSamples)
             == Prepend(outs, EmitFrom(file, streams, si, idx1, moviListPos, decodeSamples))
    {
      var out := EmitStream(file, streams[si], si, idx1, moviListPos, decodeSamples);
      if out.Err? {
        return Err(out.error);
      }
      PrependPrepend(outs, [out.value], EmitFrom(file, streams, si + 1, idx1, moviListPos, decodeSamples));
      outs := outs + [out.value];
      si := si + 1;
    }
    assert outs + [] == outs;
    return Ok(outs);
  }

  /** aviDecode: walk the chunks with a fresh decoder, require the AVI form
      type, then emit the streams. */
  method Decode(file: seq<byte>, evs: seq<ChunkEvent>, opts: Options) returns (r: Result<AviOutput, AviError>)
    ensures r == AviDecode(file, evs, opts)
  {
    var d := new Decoder(opts);
    var hs := d.Walk(evs);
    if hs.Err? {
      return Err(hs.error);
    }
    if d.riffType != AviRiffType {
      return Err(WrongRiffType(d.riffType));
    }
    var outs := EmitStreams(file, d.streams, d.idx1Samples, d.moviListPos, opts.decodeSamples);
    if outs.Err? {
      return Err(outs.error);
    }
    return Ok(AviOutput(hs.value, outs.value));
  }
}
