/** What the reader makes of other people's bytes: any header, a cut stream, a wrong size. */
module FlvWire {
  import opened Wrappers
  import opened Flv
  import opened FlvPrefix

  /** A stream header: signature, version, flags, its own length, an extension, and the zero size before the tags. */
  function HeaderOf(version: Byte, flags: Byte, extension: Bytes): Bytes
    requires 9 + |extension| < 0x1_0000_0000
  {
    Powers();
    [0x46, 0x4C, 0x56, version, flags] + ToBytes(9 + |extension|, 4) + extension + [0, 0, 0, 0]
  }

  lemma Powers()
    ensures Power256(4) == 0x1_0000_0000
  {
    PowerFacts();
  }

  lemma HeaderIsAccepted(version: Byte, flags: Byte, extension: Bytes, body: Bytes)
    requires 9 + |extension| < 0x1_0000_0000
    ensures AfterHeader(HeaderOf(version, flags, extension) + body) == Body(body)
  {
    hide FromBytes, ToBytes;
    Powers();
    var s, n := HeaderOf(version, flags, extension) + body, 9 + |extension|;
    FromToBytes(n, 4);
    assert s[..3] == WRITER_HEADER[..3];
    assert s[5..9] == ToBytes(n, 4);
    assert s[n..n + 4] == [0, 0, 0, 0];
    assert s[n + 4..] == body;
  }

  /** The reader accepts exactly such headers and goes on right behind them. */
  lemma HeaderExactly(s: Bytes, body: Bytes)
    ensures AfterHeader(s) == Body(body) <==>
              exists version: Byte, flags: Byte, extension: Bytes ::
                9 + |extension| < 0x1_0000_0000 && s == HeaderOf(version, flags, extension) + body
  {
    hide FromBytes, ToBytes, AfterHeader;
    if AfterHeader(s) == Body(body) { HeaderSplits(s, body); }
    forall version: Byte, flags: Byte, extension: Bytes
      | 9 + |extension| < 0x1_0000_0000 && s == HeaderOf(version, flags, extension) + body
      ensures AfterHeader(s) == Body(body)
    {
      HeaderIsAccepted(version, flags, extension, body);
    }
  }

  lemma HeaderSplits(s: Bytes, body: Bytes)
    requires AfterHeader(s) == Body(body)
    ensures exists version: Byte, flags: Byte, extension: Bytes ::
              9 + |extension| < 0x1_0000_0000 && s == HeaderOf(version, flags, extension) + body
  {
    hide FromBytes, ToBytes;
    Powers();
    var n := FromBytes(s[5..9]);
    ToFromBytes(s[5..9]);
    var extension := s[9..n];
    assert s[..3] == [0x46, 0x4C, 0x56] by { assert WRITER_HEADER[..3] == [0x46, 0x4C, 0x56]; }
    assert s == s[..3] + [s[3], s[4]] + s[5..9] + extension + s[n..n + 4] + s[n + 4..];
    assert s == HeaderOf(s[3], s[4], extension) + body;
  }

  lemma CutTagIsTruncated(t: FlvTag, k: nat)
    requires Fits(t) && k < |Encoded(t)|
    ensures ReadTag(Encoded(t)[..k]) == if k == 0 then End else Truncated
  {
    hide FromBytes, ToBytes, Encoded;
    if k >= 11 { CutSize(t, k); }
  }

  lemma CutSize(t: FlvTag, k: nat)
    requires Fits(t) && 11 <= k < |Encoded(t)|
    ensures FromBytes(Encoded(t)[..k][1..4]) == |t.payload|
  {
    hide FromBytes, ToBytes, Encoded;
    PowerFacts();
    FromToBytes(|t.payload|, 3);
    EncodedSlices(t, []);
    assert Encoded(t) + [] == Encoded(t);
    assert Encoded(t)[..k][1..4] == Encoded(t)[1..4];
  }

  /** A stream of whole tags cut anywhere reads as the tags before the cut, and is clean only between tags. */
  lemma {:induction false} CutStreamReads(tags: seq<FlvTag>, k: nat) returns (i: nat)
    requires AllFit(tags) && k <= |EncodeAll(tags)|
    ensures i <= |tags| && |EncodeAll(tags[..i])| <= k && (i < |tags| ==> k < |EncodeAll(tags[..i + 1])|)
    ensures ReadTags(EncodeAll(tags)[..k]) == (tags[..i], if k == |EncodeAll(tags[..i])| then Clean else TruncatedTag)
  {
    hide Encoded, ReadTag;
    if tags == [] {
      assert EncodeAll(tags)[..k] == [];
      NothingReads();
      return 0;
    }
    var first, others := Encoded(tags[0]), EncodeAll(tags[1..]);
    if k < |first| {
      assert EncodeAll(tags)[..k] == first[..k];
      CutTagIsTruncated(tags[0], k);
      assert tags[..1][1..] == [];
      return 0;
    }
    var j := CutStreamReads(tags[1..], k - |first|);
    var rest := others[..k - |first|];
    assert EncodeAll(tags)[..k] == first + rest;
    ReadInvertsEncode(tags[0], rest);
    assert tags[..j + 1][1..] == tags[1..][..j] && tags[..j + 1] == [tags[0]] + tags[1..][..j];
    if j < |tags[1..]| { assert tags[..j + 2][1..] == tags[1..][..j + 1]; }
    return j + 1;
  }

  lemma NothingReads()
    ensures ReadTags([]) == ([], Clean)
  {
  }

  /** A tag whose trailing size is not its own is refused. */
  lemma WrongSizeIsRefused(t: FlvTag, wrong: Bytes, rest: Bytes)
    requires Fits(t) && |wrong| == 4 && FromBytes(wrong) != 11 + |t.payload|
    ensures ReadTag(Encoded(t)[..11 + |t.payload|] + wrong + rest) == BadSize
  {
    hide FromBytes;
    PowerFacts();
    var size := |t.payload|;
    var s := Encoded(t)[..11 + size] + wrong + rest;
    FromToBytes(size, 3);
    EncodedSlices(t, []);
    assert Encoded(t) + [] == Encoded(t);
    assert s[1..4] == Encoded(t)[1..4];
    assert s[11 + size..15 + size] == wrong;
  }
}
