/** FLV tags on the wire: printing, parsing, and reading them from byte chunks of any size. */
module Flv {

  type Byte = b: int | 0 <= b < 256
  type Bytes = seq<Byte>

  // ----------------------------------------------------------- big-endian integers

  function Power256(width: nat): nat { if width == 0 then 1 else 256 * Power256(width - 1) }

  function ToBytes(n: nat, width: nat): (s: Bytes)
    ensures |s| == width
  {
    if width == 0 then [] else ToBytes(n / 256, width - 1) + [n % 256]
  }

  function FromBytes(s: Bytes): (n: nat)
    ensures n < Power256(|s|)
  {
    if s == [] then 0 else FromBytes(s[..|s| - 1]) * 256 + s[|s| - 1]
  }

  lemma {:induction false} FromToBytes(n: nat, width: nat)
    requires n < Power256(width)
    ensures FromBytes(ToBytes(n, width)) == n
  {
    if width > 0 {
      FromToBytes(n / 256, width - 1);
      var s := ToBytes(n, width);
      assert s[..|s| - 1] == ToBytes(n / 256, width - 1);
    }
  }

  lemma {:induction false} ToFromBytes(s: Bytes)
    ensures ToBytes(FromBytes(s), |s|) == s
  {
    if s != [] {
      ToFromBytes(s[..|s| - 1]);
      assert s == s[..|s| - 1] + [s[|s| - 1]];
    }
  }

  // -------------------------------------------------------------------------- tags

  datatype TagRecord = TagRecord(tagType: Byte, timestamp: int, streamId: Bytes, payload: Bytes)

  /** One complete tag; construction refuses other field widths. */
  type FlvTag = t: TagRecord | 0 <= t.timestamp < 0x1_0000_0000 && |t.streamId| == 3
    witness TagRecord(0, 0, [0, 0, 0], [])

  const AUDIO: Byte := 8
  const VIDEO: Byte := 9
  const LARGEST_PAYLOAD := 0xFFFFFF

  predicate IsAudioOrVideo(t: FlvTag) { t.tagType == AUDIO || t.tagType == VIDEO }
  predicate IsConfiguration(t: FlvTag) { IsAudioOrVideo(t) && |t.payload| >= 2 && t.payload[1] == 0 }
  predicate IsMedia(t: FlvTag) { IsAudioOrVideo(t) && |t.payload| >= 2 && t.payload[1] == 1 }
  predicate IsAudioConfiguration(t: FlvTag) { t.tagType == AUDIO && IsConfiguration(t) }
  predicate IsAvcConfiguration(t: FlvTag) {
    t.tagType == VIDEO && |t.payload| > 0 && t.payload[0] % 16 == 7 && IsConfiguration(t)
  }
  predicate IsVideoKeyframe(t: FlvTag) { IsMedia(t) && t.tagType == VIDEO && t.payload[0] / 16 == 1 }

  /** The kinds by their codes: frame type and codec in the first payload byte, packet type in the second. */
  lemma KindsAreCoded(t: FlvTag, frame: nat, codec: nat)
    requires |t.payload| >= 2 && codec < 16 && t.payload[0] == frame * 16 + codec
    ensures IsAvcConfiguration(t) <==> t.tagType == 9 && codec == 7 && t.payload[1] == 0
    ensures IsAudioConfiguration(t) <==> t.tagType == 8 && t.payload[1] == 0
    ensures IsVideoKeyframe(t) <==> t.tagType == 9 && frame == 1 && t.payload[1] == 1
    ensures IsMedia(t) <==> (t.tagType == 8 || t.tagType == 9) && t.payload[1] == 1
  {
  }

  /** Part timestamps are relative to the part's first keyframe and never negative. */
  function Rebased(t: FlvTag, base: nat): (r: FlvTag) {
    t.(timestamp := if t.timestamp < base then 0 else t.timestamp - base)
  }

  predicate Fits(t: FlvTag) { |t.payload| <= LARGEST_PAYLOAD }

  /** The wire form: low 24 timestamp bits, then the high byte, and the size again behind the payload. */
  function Encoded(t: FlvTag): (s: Bytes)
    requires Fits(t)
    ensures |s| == 15 + |t.payload|
  {
    [t.tagType] + ToBytes(|t.payload|, 3) + ToBytes(t.timestamp % 0x100_0000, 3) + [t.timestamp / 0x100_0000]
    + t.streamId + t.payload + ToBytes(11 + |t.payload|, 4)
  }

  datatype EncodeResult = EncodedBytes(bytes: Bytes) | PayloadTooLarge

  /** Fill the eleven-byte tag header in place. */
  method FillHeader(header: array<Byte>, t: FlvTag)
    requires header.Length == 11 && Fits(t)
    modifies header
    ensures header[..] == [t.tagType] + ToBytes(|t.payload|, 3) + ToBytes(t.timestamp % 0x100_0000, 3)
                          + [t.timestamp / 0x100_0000] + t.streamId
  {
    hide Fits, ToBytes;
    header[0] := t.tagType;
    var size, low := ToBytes(|t.payload|, 3), ToBytes(t.timestamp % 0x100_0000, 3);
    header[1], header[2], header[3] := size[0], size[1], size[2];
    header[4], header[5], header[6] := low[0], low[1], low[2];
    header[7] := t.timestamp / 0x100_0000 % 256;
    header[8], header[9], header[10] := t.streamId[0], t.streamId[1], t.streamId[2];
  }

  /** Print one tag rebased, or refuse a payload that the size field cannot hold. */
  method Encode(t: FlvTag, base: nat) returns (r: EncodeResult)
    ensures r == if Fits(t) then EncodedBytes(Encoded(Rebased(t, base))) else PayloadTooLarge
  {
    if |t.payload| > LARGEST_PAYLOAD { return PayloadTooLarge; }
    hide ToBytes;
    var header := new Byte[11](_ => 0);
    FillHeader(header, Rebased(t, base));
    return EncodedBytes(header[..] + t.payload + ToBytes(11 + |t.payload|, 4));
  }

  // ----------------------------------------------------------------------- parsing

  datatype ReadResult = End | Truncated | BadSize | Got(tag: FlvTag, rest: Bytes)

  function HeaderTimestamp(header: Bytes): (timestamp: nat)
    requires |header| == 11
    ensures timestamp < 0x1_0000_0000
  {
    assert Power256(3) == 0x100_0000;
    var high: int := header[7];
    FromBytes(header[4..7]) + high * 0x100_0000
  }

  /** Read one tag from the front of the remaining bytes. */
  function ReadTag(s: Bytes): (r: ReadResult)
    ensures r.Got? ==> |r.rest| + 15 <= |s|
  {
    if s == [] then End
    else if |s| < 11 then Truncated
    else
      var size := FromBytes(s[1..4]);
      if |s| < 15 + size then Truncated
      else if FromBytes(s[11 + size..15 + size]) != 11 + size then BadSize
      else Got(TagRecord(s[0], HeaderTimestamp(s[..11]), s[8..11], s[11..11 + size]), s[15 + size..])
  }

  lemma PowerFacts()
    ensures Power256(1) == 0x100 && Power256(3) == 0x100_0000 && Power256(4) == 0x1_0000_0000
  {
    assert Power256(2) == 0x1_0000;
  }

  /** Parsing inverts printing, whatever follows. */
  lemma ReadInvertsEncode(t: FlvTag, rest: Bytes)
    requires Fits(t)
    ensures ReadTag(Encoded(t) + rest) == Got(t, rest)
  {
    hide FromBytes;
    PowerFacts();
    var s := Encoded(t) + rest;
    var size := |t.payload|;
    FromToBytes(size, 3);
    FromToBytes(t.timestamp % 0x100_0000, 3);
    FromToBytes(11 + size, 4);
    EncodedSlices(t, rest);
    hide Encoded, ToBytes;
  }

  /** Where the fields of a printed tag lie. */
  lemma EncodedSlices(t: FlvTag, rest: Bytes)
    requires Fits(t)
    ensures var s, size := Encoded(t) + rest, |t.payload|;
            && s[0] == t.tagType && s[1..4] == ToBytes(size, 3) && s[7] == t.timestamp / 0x100_0000
            && s[..11][4..7] == ToBytes(t.timestamp % 0x100_0000, 3) && s[8..11] == t.streamId
            && s[11..11 + size] == t.payload && s[11 + size..15 + size] == ToBytes(11 + size, 4) && s[15 + size..] == rest
  {
    hide ToBytes;
    var s, size := Encoded(t) + rest, |t.payload|;
    var low, middle := ToBytes(size, 3), ToBytes(t.timestamp % 0x100_0000, 3);
    assert s[..11] == [t.tagType] + low + middle + [t.timestamp / 0x100_0000] + t.streamId;
    assert s[11..] == t.payload + ToBytes(11 + size, 4) + rest;
    assert s[11 + size..15 + size] == s[11..][size..size + 4];
    assert s[15 + size..] == s[11..][size + 4..];
    assert s[1..4] == s[..11][1..4] && s[8..11] == s[..11][8..11] && s[11..11 + size] == s[11..][..size];
  }

  lemma SplitTimestamp(low: nat, high: nat)
    requires low < 0x100_0000
    ensures (low + high * 0x100_0000) % 0x100_0000 == low && (low + high * 0x100_0000) / 0x100_0000 == high
  {
  }

  /** Printing inverts parsing: a parsed tag's wire form is exactly the bytes it was read from. */
  lemma EncodeInvertsRead(s: Bytes)
    requires ReadTag(s).Got?
    ensures Fits(ReadTag(s).tag) && s == Encoded(ReadTag(s).tag) + ReadTag(s).rest
  {
    hide FromBytes, ToBytes;
    PowerFacts();
    var t, rest := ReadTag(s).tag, ReadTag(s).rest;
    var size := |t.payload|;
    var low := FromBytes(s[4..7]);
    assert s[..11][4..7] == s[4..7];
    ToFromBytes(s[1..4]);
    ToFromBytes(s[4..7]);
    ToFromBytes(s[11 + size..15 + size]);
    SplitTimestamp(low, s[7]);
    assert s == s[..1] + s[1..4] + s[4..7] + s[7..8] + s[8..11] + s[11..11 + size] + s[11 + size..15 + size] + s[15 + size..];
    assert s[..1] == [s[0]] && s[7..8] == [s[7]];
  }

  predicate AllFit(tags: seq<FlvTag>) { forall t | t in tags :: Fits(t) }

  function EncodeAll(tags: seq<FlvTag>): Bytes
    requires AllFit(tags)
  {
    if tags == [] then [] else Encoded(tags[0]) + EncodeAll(tags[1..])
  }

  datatype Outcome = Clean | TruncatedTag | BadTagSize | BadHeader

  /** All tags up to the first boundary at which the bytes end or stop making sense. */
  function ReadTags(s: Bytes): (seq<FlvTag>, Outcome)
    decreases |s|
  {
    match ReadTag(s)
    case End => ([], Clean)
    case Truncated => ([], TruncatedTag)
    case BadSize => ([], BadTagSize)
    case Got(tag, rest) => var (more, outcome) := ReadTags(rest); ([tag] + more, outcome)
  }

  lemma {:induction false} ReadTagsInvertsEncodeAll(tags: seq<FlvTag>, rest: Bytes)
    requires AllFit(tags)
    ensures ReadTags(EncodeAll(tags) + rest) == (tags + ReadTags(rest).0, ReadTags(rest).1)
  {
    hide Encoded, ReadTag;
    if tags == [] {
      assert EncodeAll(tags) + rest == rest;
      assert tags + ReadTags(rest).0 == ReadTags(rest).0;
    } else {
      assert tags + ReadTags(rest).0 == [tags[0]] + (tags[1..] + ReadTags(rest).0);
      assert EncodeAll(tags) + rest == Encoded(tags[0]) + (EncodeAll(tags[1..]) + rest);
      ReadInvertsEncode(tags[0], EncodeAll(tags[1..]) + rest);
      ReadTagsInvertsEncodeAll(tags[1..], rest);
    }
  }

  // ------------------------------------------------------------------- file header

  const WRITER_HEADER: Bytes := [0x46, 0x4C, 0x56, 1, 5, 0, 0, 0, 9, 0, 0, 0, 0]

  /** The bytes behind a well-formed stream header, its extension and the initial zero size. */
  function AfterHeader(s: Bytes): (rest: HeaderResult)
    ensures rest.Body? ==> |rest.bytes| + 13 <= |s|
  {
    if |s| < 9 || s[..3] != WRITER_HEADER[..3] then NoHeader
    else
      var offset := FromBytes(s[5..9]);
      if offset < 9 || |s| < offset + 4 || s[offset..offset + 4] != [0, 0, 0, 0] then NoHeader
      else Body(s[offset + 4..])
  }

  datatype HeaderResult = NoHeader | Body(bytes: Bytes)

  function ReadStream(s: Bytes): (seq<FlvTag>, Outcome) {
    match AfterHeader(s)
    case NoHeader => ([], BadHeader)
    case Body(rest) => ReadTags(rest)
  }

  lemma WriterHeaderAccepted(rest: Bytes)
    ensures AfterHeader(WRITER_HEADER + rest) == Body(rest)
  {
    var s := WRITER_HEADER + rest;
    assert s[..3] == WRITER_HEADER[..3];
    assert s[5..9] == [0, 0, 0, 9];
    NineIsTheOffset();
    assert s[9..13] == [0, 0, 0, 0];
    assert s[13..] == rest;
  }

  lemma NineIsTheOffset()
    ensures FromBytes([0, 0, 0, 9]) == 9
  {
    var s: Bytes := [0, 0, 0, 9];
    assert s[..3] == [0, 0, 0];
    assert s[..3][..2] == [0, 0];
    assert s[..3][..2][..1] == [0];
    assert FromBytes([0]) == 0;
    assert FromBytes([0, 0]) == 0;
    assert FromBytes([0, 0, 0]) == 0;
  }

  /** A writer file of any tags reads back as exactly those tags. */
  lemma WriterFileRoundTrips(tags: seq<FlvTag>)
    requires AllFit(tags)
    ensures ReadStream(WRITER_HEADER + EncodeAll(tags)) == (tags, Clean)
  {
    WriterHeaderAccepted(EncodeAll(tags));
    ReadTagsInvertsEncodeAll(tags, []);
    assert EncodeAll(tags) + [] == EncodeAll(tags);
    assert tags + [] == tags;
  }
}
