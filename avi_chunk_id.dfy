/** Classification of AVI chunk tags into a stream kind and a stream number
    (aviParseChunkID, aviIsStreamType, aviDecorateStreamID). */
module AviChunkId {

  /** The triple returned by aviParseChunkID: kind, stream number, ok. */
  datatype ChunkId = ChunkId(kind: string, nr: nat, ok: bool)

  const Unclassified := ChunkId("", 0, false)

  const UncompressedVideo := "db"
  const CompressedVideo := "dc"
  const PaletteChange := "pc"
  const Audio := "wb"
  const Index := "ix"

  predicate IsDigit(c: char) {
    '0' <= c <= '9'
  }

  predicate IsDigits(s: string) {
    forall i :: 0 <= i < |s| ==> IsDigit(s[i])
  }

  /** strconv.Atoi on a two-digit string. */
  function Atoi2(s: string): (n: nat)
    requires |s| == 2 && IsDigits(s)
    ensures n < 100
  {
    (s[0] as int - '0' as int) * 10 + (s[1] as int - '0' as int)
  }

  /** The two-digit decimal spelling of a stream number, as stream tags carry it. */
  function TwoDigits(n: nat): (s: string)
    requires n < 100
    ensures |s| == 2 && IsDigits(s)
  {
    [('0' as int + n / 10) as char, ('0' as int + n % 10) as char]
  }

  /** A tag of length 4 whose first half is digits is "##kind"; otherwise one
      whose second half is digits is "kind##"; anything else is unclassified. */
  function ParseChunkID(id: string): (r: ChunkId)
    ensures r.ok ==> |r.kind| == 2 && r.nr < 100
    ensures !r.ok ==> r == Unclassified
  {
    if |id| != 4 then Unclassified
    else if IsDigits(id[0..2]) then ChunkId(id[2..4], Atoi2(id[0..2]), true)
    else if IsDigits(id[2..4]) then ChunkId(id[0..2], Atoi2(id[2..4]), true)
    else Unclassified
  }

  /** The kinds that carry stream payload: uncompressed video, compressed video, audio. */
  predicate IsStreamType(kind: string) {
    kind == UncompressedVideo || kind == CompressedVideo || kind == Audio
  }

  /** The (kind, number) a tag is annotated with: only stream payload kinds
      keep their classification, every other tag gives ("", 0). */
  function DecorateStreamID(id: string): (r: (string, nat))
    ensures r.0 != "" <==> ParseChunkID(id).ok && IsStreamType(ParseChunkID(id).kind)
    ensures r.0 != "" ==> ParseChunkID(id) == ChunkId(r.0, r.1, true)
    ensures r.0 == "" ==> r.1 == 0
  {
    var c := ParseChunkID(id);
    if c.ok && IsStreamType(c.kind) then (c.kind, c.nr) else ("", 0)
  }

  lemma Atoi2OfTwoDigits(n: nat)
    requires n < 100
    ensures Atoi2(TwoDigits(n)) == n
  {
  }

  lemma TwoDigitsOfAtoi2(s: string)
    requires |s| == 2 && IsDigits(s)
    ensures TwoDigits(Atoi2(s)) == s
  {
    var d0, d1 := s[0] as int - '0' as int, s[1] as int - '0' as int;
    assert IsDigit(s[0]) && IsDigit(s[1]);
    assert 0 <= d0 < 10 && 0 <= d1 < 10;
    assert Atoi2(s) / 10 == d0 && Atoi2(s) % 10 == d1;
  }

  /** "##kind": the digit half gives the number whatever the kind half holds,
      because the first half is tested first. */
  lemma StreamChunkIDRoundTrip(nr: nat, kind: string)
    requires nr < 100 && |kind| == 2
    ensures ParseChunkID(TwoDigits(nr) + kind) == ChunkId(kind, nr, true)
  {
    var id := TwoDigits(nr) + kind;
    assert id[0..2] == TwoDigits(nr) && id[2..4] == kind;
    Atoi2OfTwoDigits(nr);
  }

  /** "kind##": the number is read from the second half only when the kind
      half is not itself all digits. */
  lemma IndexChunkIDRoundTrip(kind: string, nr: nat)
    requires nr < 100 && |kind| == 2
    ensures !IsDigits(kind) ==> ParseChunkID(kind + TwoDigits(nr)) == ChunkId(kind, nr, true)
    ensures IsDigits(kind) ==> ParseChunkID(kind + TwoDigits(nr)) == ChunkId(TwoDigits(nr), Atoi2(kind), true)
  {
    var id := kind + TwoDigits(nr);
    assert id[0..2] == kind && id[2..4] == TwoDigits(nr);
    Atoi2OfTwoDigits(nr);
  }

  /** Every classified tag is the spelling of its result in the form that the
      precedence picks, and a tag is unclassified exactly when it has the wrong
      length or neither half is all digits. */
  lemma ParseChunkIDInverse(id: string)
    ensures var r := ParseChunkID(id);
      r.ok ==>
        || (IsDigits(id[0..2]) && id == TwoDigits(r.nr) + r.kind)
        || (!IsDigits(id[0..2]) && IsDigits(id[2..4]) && id == r.kind + TwoDigits(r.nr))
    ensures !ParseChunkID(id).ok <==> |id| != 4 || (!IsDigits(id[0..2]) && !IsDigits(id[2..4]))
  {
    if |id| == 4 {
      if IsDigits(id[0..2]) {
        TwoDigitsOfAtoi2(id[0..2]);
        assert id == id[0..2] + id[2..4];
      } else if IsDigits(id[2..4]) {
        TwoDigitsOfAtoi2(id[2..4]);
        assert id == id[0..2] + id[2..4];
      }
    }
  }

  /** The digits-first check wins: "0012" is kind "12" of stream 0. */
  lemma DigitsFirstPrecedence()
    ensures ParseChunkID("0012") == ChunkId("12", 0, true)
  {
    assert "0012"[0..2] == "00";
  }

  /** Palette-change and index chunks, and tags with no digit half, are not
      stream payload, so they are annotated with stream number 0. */
  lemma NonStreamTagsDecorateToZero()
    ensures !IsStreamType(PaletteChange) && !IsStreamType(Index)
    ensures DecorateStreamID("00pc") == ("", 0)
    ensures DecorateStreamID("ix01") == ("", 0)
    ensures DecorateStreamID("rec ") == ("", 0)
  {
    assert "00pc"[0..2] == "00" && "00pc"[2..4] == "pc";
    assert "ix01"[0..2] == "ix" && "ix01"[2..4] == "01";
    assert "rec "[0..2] == "re" && "rec "[2..4] == "c ";
    assert !IsDigit('r') && !IsDigit('c');
  }
}
