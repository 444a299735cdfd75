/** The longest provable prefix of a writer file that a crash may have cut anywhere. */
module FlvPrefix {
  import opened Flv

  /** How many bytes of whole tags the front of the bytes holds. */
  function Consumed(s: Bytes): (n: nat)
    ensures n <= |s|
    decreases |s|
  {
    match ReadTag(s)
    case Got(_, rest) => |s| - |rest| + Consumed(rest)
    case _ => 0
  }

  lemma {:induction false} ConsumedAreWholeTags(s: Bytes)
    ensures AllFit(ReadTags(s).0) && s[..Consumed(s)] == EncodeAll(ReadTags(s).0)
    ensures ReadTags(s[Consumed(s)..]).0 == []
    decreases |s|
  {
    hide Encoded;
    if ReadTag(s).Got? {
      var tag, rest := ReadTag(s).tag, ReadTag(s).rest;
      EncodeInvertsRead(s);
      ConsumedAreWholeTags(rest);
      assert ReadTags(s).0 == [tag] + ReadTags(rest).0;
      assert ReadTags(s).0[1..] == ReadTags(rest).0;
      var n := |Encoded(tag)|;
      assert s[n..] == rest;
      assert s[..Consumed(s)] == Encoded(tag) + rest[..Consumed(rest)];
      assert s[Consumed(s)..] == rest[Consumed(rest)..];
    } else {
      assert s[Consumed(s)..] == s;
    }
  }

  lemma {:induction false} ConsumedCoversTags(tags: seq<FlvTag>, rest: Bytes)
    requires AllFit(tags)
    ensures Consumed(EncodeAll(tags) + rest) == |EncodeAll(tags)| + Consumed(rest)
  {
    hide Encoded, ReadTag;
    if tags == [] {
      assert EncodeAll(tags) + rest == rest;
    } else {
      assert EncodeAll(tags) + rest == Encoded(tags[0]) + (EncodeAll(tags[1..]) + rest);
      ReadInvertsEncode(tags[0], EncodeAll(tags[1..]) + rest);
      ConsumedCoversTags(tags[1..], rest);
    }
  }

  predicate HasWriterHeader(file: Bytes) { WRITER_HEADER <= file }

  function PrefixLength(file: Bytes): (n: nat)
    requires HasWriterHeader(file)
    ensures 13 <= n <= |file|
  {
    13 + Consumed(file[13..])
  }

  datatype PrefixResult = Prefix(length: nat) | NonWriterHeader

  /** Scan tag by tag, remembering the last boundary that was proven. */
  method CompletePrefix(file: Bytes) returns (r: PrefixResult)
    ensures r == if HasWriterHeader(file) then Prefix(PrefixLength(file)) else NonWriterHeader
  {
    if |file| < 13 || file[..13] != WRITER_HEADER { return NonWriterHeader; }
    var position, lastComplete := 13, 13;
    while true
      invariant 13 <= position <= |file| && lastComplete == position
      invariant PrefixLength(file) == position + Consumed(file[position..])
      decreases |file| - position
    {
      hide Flv.ReadTag;
      var next := Flv.ReadTag(file[position..]);
      match next {
        case Got(_, rest) =>
          GotSuffix(file[lastComplete..]);
          position := |file| - |rest|;
          assert file[position..] == rest;
          lastComplete := position;
        case _ => return Prefix(lastComplete);
      }
    }
  }

  lemma GotSuffix(s: Bytes)
    requires ReadTag(s).Got?
    ensures s[|s| - |ReadTag(s).rest|..] == ReadTag(s).rest
  {
  }

  /** A writer file: header and whole tags. */
  predicate IsWriterFile(file: Bytes, tags: seq<FlvTag>) { AllFit(tags) && file == WRITER_HEADER + EncodeAll(tags) }

  /** The prefix is a writer file of exactly the tags a reader sees, and no longer prefix is one. */
  lemma PrefixIsLongest(file: Bytes, m: nat, tags: seq<FlvTag>)
    requires HasWriterHeader(file)
    ensures IsWriterFile(file[..PrefixLength(file)], ReadTags(file[13..]).0)
    ensures m <= |file| && IsWriterFile(file[..m], tags) ==> m <= PrefixLength(file)
  {
    hide Consumed, ReadTags, EncodeAll;
    var body, n := file[13..], PrefixLength(file);
    ConsumedAreWholeTags(body);
    assert file[..n] == WRITER_HEADER + body[..n - 13];
    if m <= |file| && IsWriterFile(file[..m], tags) {
      assert m == 13 + |EncodeAll(tags)|;
      assert file[..m][13..] == EncodeAll(tags);
      assert body == EncodeAll(tags) + body[m - 13..];
      ConsumedCoversTags(tags, body[m - 13..]);
    }
  }

  /** Recovering an already recovered prefix changes nothing. */
  lemma PrefixIsFixedPoint(file: Bytes)
    requires HasWriterHeader(file)
    ensures var kept := file[..PrefixLength(file)]; HasWriterHeader(kept) && PrefixLength(kept) == |kept|
  {
    hide Consumed, ReadTags, EncodeAll;
    var body := file[13..];
    var kept, tags := file[..PrefixLength(file)], ReadTags(body).0;
    ConsumedAreWholeTags(body);
    assert kept[..13] == file[..13] == WRITER_HEADER;
    assert kept[13..] == body[..Consumed(body)] == EncodeAll(tags) + [];
    ConsumedCoversTags(tags, []);
    NothingConsumed();
  }

  lemma NothingConsumed()
    ensures Consumed([]) == 0
  {
  }

  /** The file length after the first `i` tags. */
  function Boundary(tags: seq<FlvTag>, i: nat): nat
    requires AllFit(tags) && i <= |tags|
  {
    13 + |EncodeAll(tags[..i])|
  }

  lemma {:induction false} EncodeAllConcat(a: seq<FlvTag>, b: seq<FlvTag>)
    requires AllFit(a) && AllFit(b)
    ensures AllFit(a + b) && EncodeAll(a + b) == EncodeAll(a) + EncodeAll(b)
  {
    hide Encoded;
    if a == [] {
      assert a + b == b;
    } else {
      assert (a + b)[1..] == a[1..] + b;
      EncodeAllConcat(a[1..], b);
    }
  }

  /** A partially written tag never reads as one. */
  lemma CutTagDoesNotRead(t: FlvTag, k: nat)
    requires Fits(t) && k < |Encoded(t)|
    ensures !ReadTag(Encoded(t)[..k]).Got?
  {
    if k >= 11 {
      hide ReadTag;
      ReadInvertsEncode(t, []);
      assert Encoded(t) + [] == Encoded(t);
      SizeFieldOf(t, k);
    }
  }

  lemma SizeFieldOf(t: FlvTag, k: nat)
    requires Fits(t) && 11 <= k < |Encoded(t)|
    ensures !ReadTag(Encoded(t)[..k]).Got?
  {
    hide FromBytes;
    PowerFacts();
    FromToBytes(|t.payload|, 3);
    var s := Encoded(t)[..k];
    assert s[1..4] == Encoded(t)[1..4] == ToBytes(|t.payload|, 3);
  }

  lemma {:induction false} CutConsumes(tags: seq<FlvTag>, k: nat) returns (i: nat)
    requires AllFit(tags) && k <= |EncodeAll(tags)|
    ensures i <= |tags| && Consumed(EncodeAll(tags)[..k]) == |EncodeAll(tags[..i])| <= k
    ensures i < |tags| ==> k < |EncodeAll(tags[..i + 1])|
  {
    hide Encoded, ReadTag;
    if tags == [] {
      assert EncodeAll(tags)[..k] == [];
      NothingConsumed();
      return 0;
    }
    var first, others := Encoded(tags[0]), EncodeAll(tags[1..]);
    if k < |first| {
      assert EncodeAll(tags)[..k] == first[..k];
      CutTagDoesNotRead(tags[0], k);
      assert tags[..1][1..] == [];
      return 0;
    }
    var j := CutConsumes(tags[1..], k - |first|);
    var rest := others[..k - |first|];
    assert EncodeAll(tags)[..k] == first + rest;
    ReadInvertsEncode(tags[0], rest);
    assert tags[..j + 1][1..] == tags[1..][..j];
    if j < |tags[1..]| { assert tags[..j + 2][1..] == tags[1..][..j + 1]; }
    return j + 1;
  }

  /** However a writer file is cut past its header, what is kept is the last tag boundary at or before the cut. */
  lemma CutKeepsLastBoundary(tags: seq<FlvTag>, k: nat) returns (i: nat)
    requires AllFit(tags) && 13 <= k <= 13 + |EncodeAll(tags)|
    ensures var cut := (WRITER_HEADER + EncodeAll(tags))[..k];
            HasWriterHeader(cut) && i <= |tags| && PrefixLength(cut) == Boundary(tags, i) <= k
            && (i < |tags| ==> k < Boundary(tags, i + 1))
  {
    hide Consumed, EncodeAll;
    var cut := (WRITER_HEADER + EncodeAll(tags))[..k];
    assert cut[..13] == WRITER_HEADER;
    assert cut[13..] == EncodeAll(tags)[..k - 13];
    i := CutConsumes(tags, k - 13);
  }
}
