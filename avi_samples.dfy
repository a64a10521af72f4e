/** The second pass of the AVI decode: per stream, pick one source of sample
    ranges by fixed priority (super index, then ix## chunks, then idx1) and
    say for each range whether it goes to the stream's codec or stays raw. */
module AviSamples {
  import opened Wrappers
  import opened Bytes
  import opened AviChunkId
  import opened AviIndex
  import opened AviStreamFormat

  /** A stream as collected by the first pass (aviStream): its codec mapping
      (hasFormat/format), the super-index ranges (indexes) and the ranges of
      its ix## chunks (ixSamples). */
  datatype AviStream = AviStream(format: Option<Codec>, indexes: seq<Range>, ixSamples: seq<Range>)

  /** Which index the samples of a stream came from; NoSource is the case
      where no sample array is emitted at all. */
  datatype Source = SuperIndexSource | IxChunkSource | Idx1Source | NoSource

  /** One emitted sample: its range, and the codec it is decoded with (None: raw bits). */
  datatype Sample = Sample(range: Range, codec: Option<Codec>)

  datatype StreamOut = StreamOut(source: Source, samples: seq<Sample>)

  /** The movi position is just after the list type; an idx1 offset counts from
      the type field, and 32 more bits skip the addressed chunk's size field. */
  const Idx1Skip := 32

  predicate InFile(file: seq<byte>, r: Range) {
    0 <= r.start && 0 <= r.len && r.start + r.len <= |file| * 8
  }

  /** The bytes of a (byte-aligned) range. */
  function Window(file: seq<byte>, r: Range): seq<byte>
    requires InFile(file, r)
  {
    file[r.start / 8 .. (r.start + r.len) / 8]
  }

  /** The standard index a super-index entry points at: its 4-byte type and
      4-byte size are skipped, then the index is decoded within the range. */
  function SubIndexAt(file: seq<byte>, r: Range): Result<seq<Range>, AviError> {
    if !InFile(file, r) then Err(RangeOutOfBounds)
    else
      var w := Window(file, r);
      if |w| < 8 then Err(ShortRead) else ChunkIndex(w[8..])
  }

  /** The concatenation, in reference order, of the indexes a super index points at. */
  function SuperIndexSamples(file: seq<byte>, indexes: seq<Range>): Result<seq<Range>, AviError>
    decreases |indexes|
  {
    if indexes == [] then Ok([])
    else
      var first :- SubIndexAt(file, indexes[0]);
      var rest :- SuperIndexSamples(file, indexes[1..]);
      Ok(first + rest)
  }

  /** The idx1 entries of stream si, in file order, as ranges after the movi position. */
  function Idx1Ranges(idx1: seq<Idx1Sample>, si: nat, moviListPos: int): seq<Range>
    decreases |idx1|
  {
    if idx1 == [] then []
    else
      var e := idx1[0];
      (if e.streamNr == si then [Range(moviListPos + e.offset + Idx1Skip, e.size)] else [])
      + Idx1Ranges(idx1[1..], si, moviListPos)
  }

  /** The priority rule: the first non-empty of super index and ix## ranges,
      else the idx1 entries of this stream when any idx1 entries exist. */
  function SelectRanges(superRanges: seq<Range>, s: AviStream, idx1: seq<Idx1Sample>, si: nat, moviListPos: int)
    : (Source, seq<Range>)
  {
    if |superRanges| > 0 then (SuperIndexSource, superRanges)
    else if |s.ixSamples| > 0 then (IxChunkSource, s.ixSamples)
    else if |idx1| > 0 then (Idx1Source, Idx1Ranges(idx1, si, moviListPos))
    else (NoSource, [])
  }

  /** A non-empty sample goes to the stream's codec when decoding was asked
      for and the stream has one; the range itself must lie in the file. */
  function DecodeSample(file: seq<byte>, r: Range, format: Option<Codec>, decodeSamples: bool)
    : Result<Sample, AviError>
  {
    if !InFile(file, r) then Err(RangeOutOfBounds)
    else Ok(Sample(r, if r.len > 0 && decodeSamples && format.Some? then format else None))
  }

  function DecodeSampleList(file: seq<byte>, rs: seq<Range>, format: Option<Codec>, decodeSamples: bool)
    : Result<seq<Sample>, AviError>
    decreases |rs|
  {
    if rs == [] then Ok([])
    else
      var first :- DecodeSample(file, rs[0], format, decodeSamples);
      var rest :- DecodeSampleList(file, rs[1..], format, decodeSamples);
      Ok([first] + rest)
  }

  function StreamSamples(file: seq<byte>, s: AviStream, si: nat, idx1: seq<Idx1Sample>, moviListPos: int,
                         decodeSamples: bool): Result<StreamOut, AviError>
  {
    var superRanges :- SuperIndexSamples(file, s.indexes);
    var selected := SelectRanges(superRanges, s, idx1, si, moviListPos);
    var samples :- DecodeSampleList(file, selected.1, s.format, decodeSamples);
    Ok(StreamOut(selected.0, samples))
  }

  function EmitFrom(file: seq<byte>, streams: seq<AviStream>, si: nat, idx1: seq<Idx1Sample>,
                    moviListPos: int, decodeSamples: bool): Result<seq<StreamOut>, AviError>
    requires si <= |streams|
    decreases |streams| - si
  {
    if si == |streams| then Ok([])
    else
      var out :- StreamSamples(file, streams[si], si, idx1, moviListPos, decodeSamples);
      var rest :- EmitFrom(file, streams, si + 1, idx1, moviListPos, decodeSamples);
      Ok([out] + rest)
  }

  /** The per-stream output of the file, streams in declaration order. */
  function Emission(file: seq<byte>, streams: seq<AviStream>, idx1: seq<Idx1Sample>, moviListPos: int,
                    decodeSamples: bool): Result<seq<StreamOut>, AviError>
  {
    EmitFrom(file, streams, 0, idx1, moviListPos, decodeSamples)
  }

  // ---------------------------------------------------------------------------
  // Properties

  /** Following a super index equals decoding its targets one at a time:
      the result for a + b is the result for a followed by that for b. */
  lemma {:induction false} SuperIndexSamplesAppend(file: seq<byte>, a: seq<Range>, b: seq<Range>)
    ensures SuperIndexSamples(file, a + b).Ok? <==> SuperIndexSamples(file, a).Ok? && SuperIndexSamples(file, b).Ok?
    ensures SuperIndexSamples(file, a + b).Ok? ==>
      SuperIndexSamples(file, a + b).value == SuperIndexSamples(file, a).value + SuperIndexSamples(file, b).value
    decreases |a|
  {
    if a == [] {
      assert a + b == b;
    } else {
      assert (a + b)[0] == a[0] && (a + b)[1..] == a[1..] + b;
      SuperIndexSamplesAppend(file, a[1..], b);
    }
  }

  /** A super index of one entry yields exactly the index decoded at its target. */
  lemma SuperIndexSingle(file: seq<byte>, r: Range)
    ensures SuperIndexSamples(file, [r]) == SubIndexAt(file, r)
  {
    assert [r][1..] == [];
    match SubIndexAt(file, r)
    case Ok(x) => assert x + [] == x;
    case Err(_) =>
  }

  lemma {:induction false} Idx1RangesAppend(a: seq<Idx1Sample>, b: seq<Idx1Sample>, si: nat, moviListPos: int)
    ensures Idx1Ranges(a + b, si, moviListPos) == Idx1Ranges(a, si, moviListPos) + Idx1Ranges(b, si, moviListPos)
    decreases |a|
  {
    if a == [] {
      assert a + b == b;
    } else {
      assert (a + b)[0] == a[0] && (a + b)[1..] == a[1..] + b;
      Idx1RangesAppend(a[1..], b, si, moviListPos);
    }
  }

  /** The idx1 ranges of stream si are exactly its entries' ranges: every one
      comes from an entry numbered si, and every such entry gives one. */
  lemma {:induction false} Idx1RangesMembers(idx1: seq<Idx1Sample>, si: nat, moviListPos: int, r: Range)
    ensures r in Idx1Ranges(idx1, si, moviListPos) <==>
      exists j :: 0 <= j < |idx1| && idx1[j].streamNr == si
                  && r == Range(moviListPos + idx1[j].offset + Idx1Skip, idx1[j].size)
    decreases |idx1|
  {
    if idx1 != [] {
      Idx1RangesMembers(idx1[1..], si, moviListPos, r);
      var tail := idx1[1..];
      if r in Idx1Ranges(tail, si, moviListPos) {
        var j :| 0 <= j < |tail| && tail[j].streamNr == si
                 && r == Range(moviListPos + tail[j].offset + Idx1Skip, tail[j].size);
        assert idx1[j + 1] == tail[j];
      }
      forall j | 0 <= j < |idx1| && idx1[j].streamNr == si
                 && r == Range(moviListPos + idx1[j].offset + Idx1Skip, idx1[j].size)
        ensures r in Idx1Ranges(idx1, si, moviListPos)
      {
        if j > 0 {
          assert tail[j - 1] == idx1[j];
        }
      }
    }
  }

  /** Entries of other streams contribute nothing to stream si. */
  lemma {:induction false} Idx1RangesOtherStreams(idx1: seq<Idx1Sample>, si: nat, moviListPos: int)
    requires forall j :: 0 <= j < |idx1| ==> idx1[j].streamNr != si
    ensures Idx1Ranges(idx1, si, moviListPos) == []
    decreases |idx1|
  {
    if idx1 != [] {
      Idx1RangesOtherStreams(idx1[1..], si, moviListPos);
    }
  }

  /** Every selected range becomes one sample, in order; a sample is decoded
      by the stream's codec exactly when it is non-empty, decoding was asked
      for and the stream has a codec. */
  lemma {:induction false} DecodeSampleListShape(file: seq<byte>, rs: seq<Range>, format: Option<Codec>,
                                                 decodeSamples: bool)
    ensures DecodeSampleList(file, rs, format, decodeSamples).Ok? <==> forall i :: 0 <= i < |rs| ==> InFile(file, rs[i])
    ensures DecodeSampleList(file, rs, format, decodeSamples).Ok? ==>
      var ss := DecodeSampleList(file, rs, format, decodeSamples).value;
      && |ss| == |rs|
      && forall i :: 0 <= i < |rs| ==>
        && ss[i].range == rs[i]
        && (ss[i].codec.Some? <==> rs[i].len > 0 && decodeSamples && format.Some?)
        && (ss[i].codec.Some? ==> ss[i].codec == format)
    decreases |rs|
  {
    if rs != [] {
      DecodeSampleListShape(file, rs[1..], format, decodeSamples);
      if !InFile(file, rs[0]) {
        assert !(forall i :: 0 <= i < |rs| ==> InFile(file, rs[i]));
      } else if (forall i :: 0 <= i < |rs[1..]| ==> InFile(file, rs[1..][i])) {
        forall i | 0 <= i < |rs| ensures InFile(file, rs[i]) {
          if i > 0 { assert rs[i] == rs[1..][i - 1]; }
        }
      } else {
        var i :| 0 <= i < |rs[1..]| && !InFile(file, rs[1..][i]);
        assert rs[i + 1] == rs[1..][i];
      }
    }
  }

  /** Super index first: when it yields ranges, they are the stream's samples
      and neither the ix## ranges nor any idx1 entry are looked at. */
  lemma SuperIndexWins(file: seq<byte>, s: AviStream, si: nat, idx1: seq<Idx1Sample>, idx1b: seq<Idx1Sample>,
                       ixb: seq<Range>, moviListPos: int, decodeSamples: bool)
    requires SuperIndexSamples(file, s.indexes).Ok? && |SuperIndexSamples(file, s.indexes).value| > 0
    ensures StreamSamples(file, s, si, idx1, moviListPos, decodeSamples)
         == StreamSamples(file, s.(ixSamples := ixb), si, idx1b, moviListPos, decodeSamples)
    ensures StreamSamples(file, s, si, idx1, moviListPos, decodeSamples).Ok?
        <==> DecodeSampleList(file, SuperIndexSamples(file, s.indexes).value, s.format, decodeSamples).Ok?
    ensures StreamSamples(file, s, si, idx1, moviListPos, decodeSamples).Ok? ==>
      StreamSamples(file, s, si, idx1, moviListPos, decodeSamples).value
        == StreamOut(SuperIndexSource,
                     DecodeSampleList(file, SuperIndexSamples(file, s.indexes).value, s.format, decodeSamples).value)
  {
  }

  /** ix## ranges second: without super-index ranges, they are the samples
      whatever idx1 holds. */
  lemma IxChunksBeforeIdx1(file: seq<byte>, s: AviStream, si: nat, idx1: seq<Idx1Sample>, idx1b: seq<Idx1Sample>,
                           moviListPos: int, decodeSamples: bool)
    requires SuperIndexSamples(file, s.indexes) == Ok([]) && |s.ixSamples| > 0
    ensures StreamSamples(file, s, si, idx1, moviListPos, decodeSamples)
         == StreamSamples(file, s, si, idx1b, moviListPos, decodeSamples)
    ensures StreamSamples(file, s, si, idx1, moviListPos, decodeSamples).Ok?
        <==> DecodeSampleList(file, s.ixSamples, s.format, decodeSamples).Ok?
    ensures StreamSamples(file, s, si, idx1, moviListPos, decodeSamples).Ok? ==>
      StreamSamples(file, s, si, idx1, moviListPos, decodeSamples).value
        == StreamOut(IxChunkSource, DecodeSampleList(file, s.ixSamples, s.format, decodeSamples).value)
  {
  }

  /** idx1 last: entry {offset O, size L} of stream si (already O*8, L*8 in
      bits) with the movi list at bit M gives the range (M + O*8 + 32, L*8). */
  lemma Idx1Fallback(file: seq<byte>, s: AviStream, si: nat, idx1: seq<Idx1Sample>, moviListPos: int,
                     decodeSamples: bool)
    requires SuperIndexSamples(file, s.indexes) == Ok([]) && s.ixSamples == [] && |idx1| > 0
    requires forall i :: 0 <= i < |Idx1Ranges(idx1, si, moviListPos)| ==> InFile(file, Idx1Ranges(idx1, si, moviListPos)[i])
    ensures StreamSamples(file, s, si, idx1, moviListPos, decodeSamples).Ok?
    ensures var out := StreamSamples(file, s, si, idx1, moviListPos, decodeSamples).value;
      && out.source == Idx1Source
      && |out.samples| == |Idx1Ranges(idx1, si, moviListPos)|
      && forall i :: 0 <= i < |out.samples| ==> out.samples[i].range == Idx1Ranges(idx1, si, moviListPos)[i]
  {
    DecodeSampleListShape(file, Idx1Ranges(idx1, si, moviListPos), s.format, decodeSamples);
  }

  /** A stream with no index of any kind that names it has an empty sample
      list, and that is not an error. */
  lemma NoIndexNoSamples(file: seq<byte>, s: AviStream, si: nat, idx1: seq<Idx1Sample>, moviListPos: int,
                         decodeSamples: bool)
    requires SuperIndexSamples(file, s.indexes) == Ok([]) && s.ixSamples == []
    requires forall j :: 0 <= j < |idx1| ==> idx1[j].streamNr != si
    ensures StreamSamples(file, s, si, idx1, moviListPos, decodeSamples).Ok?
    ensures StreamSamples(file, s, si, idx1, moviListPos, decodeSamples).value.samples == []
  {
    Idx1RangesOtherStreams(idx1, si, moviListPos);
  }

  /** One turn of the emission loop: the stream's own output, then the rest. */
  lemma EmitFromStep(file: seq<byte>, streams: seq<AviStream>, si: nat, idx1: seq<Idx1Sample>,
                     moviListPos: int, decodeSamples: bool)
    requires si < |streams| && EmitFrom(file, streams, si, idx1, moviListPos, decodeSamples).Ok?
    ensures StreamSamples(file, streams[si], si, idx1, moviListPos, decodeSamples).Ok?
    ensures EmitFrom(file, streams, si + 1, idx1, moviListPos, decodeSamples).Ok?
    ensures EmitFrom(file, streams, si, idx1, moviListPos, decodeSamples).value
         == [StreamSamples(file, streams[si], si, idx1, moviListPos, decodeSamples).value]
            + EmitFrom(file, streams, si + 1, idx1, moviListPos, decodeSamples).value
  {
  }

  lemma {:induction false} EmitFromLength(file: seq<byte>, streams: seq<AviStream>, si: nat, idx1: seq<Idx1Sample>,
                                          moviListPos: int, decodeSamples: bool)
    requires si <= |streams| && EmitFrom(file, streams, si, idx1, moviListPos, decodeSamples).Ok?
    ensures |EmitFrom(file, streams, si, idx1, moviListPos, decodeSamples).value| == |streams| - si
    decreases |streams| - si
  {
    if si < |streams| {
      EmitFromStep(file, streams, si, idx1, moviListPos, decodeSamples);
      EmitFromLength(file, streams, si + 1, idx1, moviListPos, decodeSamples);
    }
  }

  lemma {:induction false} EmitFromAt(file: seq<byte>, streams: seq<AviStream>, si: nat, idx1: seq<Idx1Sample>,
                                      moviListPos: int, decodeSamples: bool, k: nat)
    requires si + k < |streams| && EmitFrom(file, streams, si, idx1, moviListPos, decodeSamples).Ok?
    ensures |EmitFrom(file, streams, si, idx1, moviListPos, decodeSamples).value| == |streams| - si
    ensures StreamSamples(file, streams[si + k], si + k, idx1, moviListPos, decodeSamples)
         == Ok(EmitFrom(file, streams, si, idx1, moviListPos, decodeSamples).value[k])
    decreases k
  {
    EmitFromLength(file, streams, si, idx1, moviListPos, decodeSamples);
    EmitFromStep(file, streams, si, idx1, moviListPos, decodeSamples);
    if k > 0 {
      EmitFromAt(file, streams, si + 1, idx1, moviListPos, decodeSamples, k - 1);
      assert si + 1 + (k - 1) == si + k;
    } else {
      assert si + k == si;
    }
  }

  /** Emission from stream si on yields one output per remaining stream, each
      that stream's own selection. */
  lemma EmitFromShape(file: seq<byte>, streams: seq<AviStream>, si: nat, idx1: seq<Idx1Sample>,
                      moviListPos: int, decodeSamples: bool)
    requires si <= |streams|
    ensures EmitFrom(file, streams, si, idx1, moviListPos, decodeSamples).Ok? ==>
      var outs := EmitFrom(file, streams, si, idx1, moviListPos, decodeSamples).value;
      && |outs| == |streams| - si
      && forall k :: 0 <= k < |outs| ==>
        StreamSamples(file, streams[si + k], si + k, idx1, moviListPos, decodeSamples) == Ok(outs[k])
  {
    if EmitFrom(file, streams, si, idx1, moviListPos, decodeSamples).Ok? {
      EmitFromLength(file, streams, si, idx1, moviListPos, decodeSamples);
      forall k | 0 <= k < |streams| - si
        ensures StreamSamples(file, streams[si + k], si + k, idx1, moviListPos, decodeSamples)
             == Ok(EmitFrom(file, streams, si, idx1, moviListPos, decodeSamples).value[k])
      {
        EmitFromAt(file, streams, si, idx1, moviListPos, decodeSamples, k);
      }
    }
  }

  /** One output per stream found, in declaration order, each the stream's own
      selection: the number of streams declared in the main header plays no part. */
  lemma EmissionShape(file: seq<byte>, streams: seq<AviStream>, idx1: seq<Idx1Sample>, moviListPos: int,
                      decodeSamples: bool)
    ensures Emission(file, streams, idx1, moviListPos, decodeSamples).Ok? ==>
      var outs := Emission(file, streams, idx1, moviListPos, decodeSamples).value;
      && |outs| == |streams|
      && forall si :: 0 <= si < |streams| ==>
        StreamSamples(file, streams[si], si, idx1, moviListPos, decodeSamples) == Ok(outs[si])
  {
    EmitFromShape(file, streams, 0, idx1, moviListPos, decodeSamples);
  }

  lemma {:induction false} EmitFromIgnoresOutOfRange(file: seq<byte>, streams: seq<AviStream>, si: nat,
                                                     idx1: seq<Idx1Sample>, e: Idx1Sample, moviListPos: int,
                                                     decodeSamples: bool)
    requires si <= |streams| && |idx1| > 0 && e.streamNr >= |streams|
    ensures EmitFrom(file, streams, si, idx1 + [e], moviListPos, decodeSamples)
         == EmitFrom(file, streams, si, idx1, moviListPos, decodeSamples)
    decreases |streams| - si
  {
    if si < |streams| {
      Idx1RangesAppend(idx1, [e], si, moviListPos);
      assert [e][1..] == [];
      assert Idx1Ranges(idx1 + [e], si, moviListPos) == Idx1Ranges(idx1, si, moviListPos);
      assert StreamSamples(file, streams[si], si, idx1 + [e], moviListPos, decodeSamples)
          == StreamSamples(file, streams[si], si, idx1, moviListPos, decodeSamples);
      EmitFromIgnoresOutOfRange(file, streams, si + 1, idx1, e, moviListPos, decodeSamples);
    }
  }

  /** An idx1 entry whose stream number has no stream is ignored, never fatal. */
  lemma OutOfRangeIdx1Ignored(file: seq<byte>, streams: seq<AviStream>, idx1: seq<Idx1Sample>, e: Idx1Sample,
                              moviListPos: int, decodeSamples: bool)
    requires |idx1| > 0 && e.streamNr >= |streams|
    ensures Emission(file, streams, idx1 + [e], moviListPos, decodeSamples)
         == Emission(file, streams, idx1, moviListPos, decodeSamples)
  {
    EmitFromIgnoresOutOfRange(file, streams, 0, idx1, e, moviListPos, decodeSamples);
  }

  // ---------------------------------------------------------------------------
  // The emission loop

  /** Reads the standard index one super-index entry points at. */
  method FollowSubIndex(file: seq<byte>, target: Range) returns (r: Result<seq<Range>, AviError>)
    ensures r == SubIndexAt(file, target)
  {
    if !InFile(file, target) {
      return Err(RangeOutOfBounds);
    }
    var w := Window(file, target);
    if |w| < 8 {
      return Err(ShortRead);
    }
    r := DecodeChunkIndex(w[8..]);
  }

  lemma SuperIndexStep(file: seq<byte>, indexes: seq<Range>, j: nat)
    requires j < |indexes|
    ensures SubIndexAt(file, indexes[j]).Err? ==>
      SuperIndexSamples(file, indexes[j..]) == Err(SubIndexAt(file, indexes[j]).error)
    ensures SubIndexAt(file, indexes[j]).Ok? ==>
      SuperIndexSamples(file, indexes[j..]) == Prepend(SubIndexAt(file, indexes[j]).value, SuperIndexSamples(file, indexes[j + 1..]))
  {
    assert indexes[j..][0] == indexes[j] && indexes[j..][1..] == indexes[j + 1..];
  }

  /** Follows each super-index entry in turn and concatenates the indexes found. */
  method FollowSuperIndex(file: seq<byte>, indexes: seq<Range>) returns (r: Result<seq<Range>, AviError>)
    ensures r == SuperIndexSamples(file, indexes)
  {
    var acc: seq<Range> := [];
    var j := 0;
    PrependNil(SuperIndexSamples(file, indexes));
    while j < |indexes|
      invariant 0 <= j <= |indexes|
      invariant SuperIndexSamples(file, indexes) == Prepend(acc, SuperIndexSamples(file, indexes[j..]))
    {
      SuperIndexStep(file, indexes, j);
      var sub := FollowSubIndex(file, indexes[j]);
      if sub.Err? {
        return Err(sub.error);
      }
      PrependPrepend(acc, sub.value, SuperIndexSamples(file, indexes[j + 1..]));
      acc := acc + sub.value;
      j := j + 1;
    }
    assert indexes[j..] == [];
    assert acc + [] == acc;
    return Ok(acc);
  }

  /** The idx1 entries of stream si, skipping the others. */
  method CollectIdx1(idx1: seq<Idx1Sample>, si: nat, moviListPos: int) returns (rs: seq<Range>)
    ensures rs == Idx1Ranges(idx1, si, moviListPos)
  {
    rs := [];
    var j := 0;
    while j < |idx1|
      invariant 0 <= j <= |idx1|
      invariant Idx1Ranges(idx1, si, moviListPos) == rs + Idx1Ranges(idx1[j..], si, moviListPos)
    {
      assert idx1[j..][0] == idx1[j] && idx1[j..][1..] == idx1[j + 1..];
      var e := idx1[j];
      if e.streamNr == si {
        rs := rs + [Range(moviListPos + e.offset + Idx1Skip, e.size)];
      }
      j := j + 1;
    }
    assert idx1[j..] == [];
  }

  method DecodeSamplesOf(file: seq<byte>, rs: seq<Range>, format: Option<Codec>, decodeSamples: bool)
    returns (r: Result<seq<Sample>, AviError>)
    ensures r == DecodeSampleList(file, rs, format, decodeSamples)
  {
    var acc: seq<Sample> := [];
    var j := 0;
    PrependNil(DecodeSampleList(file, rs, format, decodeSamples));
    while j < |rs|
      invariant 0 <= j <= |rs|
      invariant DecodeSampleList(file, rs, format, decodeSamples)
             == Prepend(acc, DecodeSampleList(file, rs[j..], format, decodeSamples))
    {
      assert rs[j..][0] == rs[j] && rs[j..][1..] == rs[j + 1..];
      var sr := rs[j];
      if !InFile(file, sr) {
        return Err(RangeOutOfBounds);
      }
      var codec := if sr.len > 0 && decodeSamples && format.Some? then format else None;
      PrependPrepend(acc, [Sample(sr, codec)], DecodeSampleList(file, rs[j + 1..], format, decodeSamples));
      acc := acc + [Sample(sr, codec)];
      j := j + 1;
    }
    assert rs[j..] == [];
    assert acc + [] == acc;
    return Ok(acc);
  }

  /** One stream of the emission loop: the super index is followed, one
      source is chosen and its samples are emitted. */
  method EmitStream(file: seq<byte>, s: AviStream, si: nat, idx1: seq<Idx1Sample>, moviListPos: int,
                    decodeSamples: bool) returns (r: Result<StreamOut, AviError>)
    ensures r == StreamSamples(file, s, si, idx1, moviListPos, decodeSamples)
  {
    var superRanges := FollowSuperIndex(file, s.indexes);
    if superRanges.Err? {
      return Err(superRanges.error);
    }
    var source: Source;
    var rs: seq<Range>;
    if |superRanges.value| > 0 {
      source, rs := SuperIndexSource, superRanges.value;
    } else if |s.ixSamples| > 0 {
      source, rs := IxChunkSource, s.ixSamples;
    } else if |idx1| > 0 {
      source := Idx1Source;
      rs := CollectIdx1(idx1, si, moviListPos);
    } else {
      source, rs := NoSource, [];
    }
    var samples := DecodeSamplesOf(file, rs, s.format, decodeSamples);
    if samples.Err? {
      return Err(samples.error);
    }
    return Ok(StreamOut(source, samples.value));
  }
}
