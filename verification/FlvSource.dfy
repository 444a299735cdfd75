/** The incremental tag reader: whatever way the same bytes are cut into chunks, it
    yields the same tags and ends with the same outcome. */
module FlvSource {
  import opened Flv

  function Flatten(chunks: seq<Bytes>): Bytes {
    if chunks == [] then [] else chunks[0] + Flatten(chunks[1..])
  }

  datatype TagRead = NoTag(outcome: Outcome) | OneTag(tag: FlvTag)
  datatype ReadExactResult = Exactly(bytes: Bytes) | NothingLeft | Eof

  lemma TakenTogether(all: Bytes, n: nat, m: nat)
    requires n + m <= |all|
    ensures all[..n] + all[n..][..m] == all[..n + m] && all[n..][m..] == all[n + m..]
  {
  }

  lemma HeaderFields(all: Bytes)
    requires |all| >= 9
    ensures all[..9][..3] == all[..3] && all[..9][5..9] == all[5..9]
  {
  }

  lemma NextFour(all: Bytes, offset: nat)
    requires offset + 4 <= |all|
    ensures all[offset..][..4] == all[offset..offset + 4] && all[offset..][4..] == all[offset + 4..]
  {
  }

  /** A file-like view over a sequence of chunks. */
  class ChunkStream {
    var chunks: seq<Bytes>
    var buffer: Bytes
    var exhausted: bool

    ghost predicate Valid()
      reads this
    {
      exhausted ==> chunks == []
    }

    /** The bytes that have not been read yet. */
    ghost function Remaining(): Bytes
      reads this
    {
      buffer + Flatten(chunks)
    }

    constructor (chunks: seq<Bytes>)
      ensures Valid() && Remaining() == Flatten(chunks)
    {
      this.chunks, buffer, exhausted := chunks, [], false;
    }

    /** Return up to `count` bytes, taking chunks only as needed. */
    method Read(count: nat) returns (data: Bytes)
      requires Valid()
      modifies this
      ensures Valid()
      ensures data == old(Remaining())[..if count <= |old(Remaining())| then count else |old(Remaining())|]
      ensures Remaining() == old(Remaining())[|data|..]
    {
      while |buffer| < count && !exhausted
        invariant Valid() && Remaining() == old(Remaining())
        decreases !exhausted, |chunks|
      {
        if chunks == [] {
          exhausted := true;
        } else {
          buffer, chunks := buffer + chunks[0], chunks[1..];
        }
      }
      var taken := if count <= |buffer| then count else |buffer|;
      data := buffer[..taken];
      buffer := buffer[taken..];
    }

    /** Read exactly `count` bytes out of however many short reads it takes. */
    method ReadExact(count: nat, allowInitialEof: bool) returns (r: ReadExactResult)
      requires Valid()
      modifies this
      ensures Valid()
      ensures r == if count <= |old(Remaining())| then Exactly(old(Remaining())[..count])
                   else if allowInitialEof && old(Remaining()) == [] then NothingLeft else Eof
      ensures r.Exactly? ==> Remaining() == old(Remaining())[count..]
    {
      hide Flatten;
      var collected: Bytes := [];
      var remaining := count;
      ghost var all := Remaining();
      while remaining > 0
        invariant Valid() && 0 <= remaining == count - |collected|
        invariant |collected| <= |all| && collected == all[..|collected|] && Remaining() == all[|collected|..]
      {
        var chunk := Read(remaining);
        TakenTogether(all, |collected|, |chunk|);
        if chunk == [] {
          return if allowInitialEof && collected == [] then NothingLeft else Eof;
        }
        collected := collected + chunk;
        remaining := remaining - |chunk|;
      }
      return Exactly(collected);
    }

    /** Read one tag, or report a clean end, a truncation or a wrong trailing size. */
    method ReadTag() returns (r: TagRead)
      requires Valid()
      modifies this
      ensures Valid()
      ensures match Flv.ReadTag(old(Remaining()))
              case End => r == NoTag(Clean)
              case Truncated => r == NoTag(TruncatedTag)
              case BadSize => r == NoTag(BadTagSize)
              case Got(tag, rest) => r == OneTag(tag) && Remaining() == rest
    {
      ghost var all := Remaining();
      var first := ReadExact(11, true);
      if first.NothingLeft? { return NoTag(Clean); }
      if first.Eof? { return NoTag(TruncatedTag); }
      var header := first.bytes;
      assert header[1..4] == all[1..4];
      var size := FromBytes(header[1..4]);
      var payload := ReadExact(size, false);
      if !payload.Exactly? { return NoTag(TruncatedTag); }
      assert payload.bytes == all[11..11 + size];
      var previous := ReadExact(4, false);
      if !previous.Exactly? { return NoTag(TruncatedTag); }
      assert previous.bytes == all[11 + size..15 + size];
      assert Remaining() == all[15 + size..];
      if FromBytes(previous.bytes) != 11 + size { return NoTag(BadTagSize); }
      assert header == all[..11] && header[8..11] == all[8..11];
      return OneTag(TagRecord(header[0], HeaderTimestamp(header), header[8..11], payload.bytes));
    }

    /** Check the stream header, its extension and the zero size before the first tag. */
    method ReadFlvHeader() returns (ok: bool)
      requires Valid()
      modifies this
      ensures Valid()
      ensures ok <==> AfterHeader(old(Remaining())).Body?
      ensures ok ==> Remaining() == AfterHeader(old(Remaining())).bytes
    {
      hide Flatten, FromBytes;
      ghost var all := Remaining();
      if |all| >= 9 { HeaderFields(all); }
      var header := Read(9);
      if |header| != 9 || header[..3] != WRITER_HEADER[..3] {
        return false;
      }
      var offset := FromBytes(header[5..9]);
      if offset < 9 { return false; }
      var extension := Read(offset - 9);
      if |extension| != offset - 9 { return false; }
      TakenTogether(all, 9, offset - 9);
      assert Remaining() == all[offset..];
      var size := Read(4);
      if |all| >= offset + 4 { NextFour(all, offset); }
      return size == [0, 0, 0, 0];
    }

    /** Yield the remaining tags, and how the stream ended. */
    method RemainingTags() returns (tags: seq<FlvTag>, outcome: Outcome)
      requires Valid()
      modifies this
      ensures (tags, outcome) == ReadTags(old(Remaining()))
    {
      hide ReadTags, Flv.ReadTag, Remaining;
      ghost var body := Remaining();
      tags := [];
      assert tags + ReadTags(body).0 == ReadTags(body).0;
      while true
        invariant Valid()
        invariant ReadTags(body) == (tags + ReadTags(Remaining()).0, ReadTags(Remaining()).1)
        decreases |Remaining()|
      {
        ghost var before := Remaining();
        ReadTagsStep(before);
        var next := ReadTag();
        if next.NoTag? {
          assert tags + [] == tags;
          return tags, next.outcome;
        }
        assert tags + ReadTags(before).0 == (tags + [next.tag]) + ReadTags(Remaining()).0;
        tags := tags + [next.tag];
      }
    }

    /** Yield every tag of the stream, and how it ended. */
    method IterTags() returns (tags: seq<FlvTag>, outcome: Outcome)
      requires Valid()
      modifies this
      ensures (tags, outcome) == ReadStream(old(Remaining()))
    {
      hide AfterHeader, ReadTags, Remaining;
      var ok := ReadFlvHeader();
      if !ok { return [], BadHeader; }
      tags, outcome := RemainingTags();
    }
  }

  lemma ReadTagsStep(s: Bytes)
    ensures match Flv.ReadTag(s)
            case End => ReadTags(s) == ([], Clean)
            case Truncated => ReadTags(s) == ([], TruncatedTag)
            case BadSize => ReadTags(s) == ([], BadTagSize)
            case Got(tag, rest) => |rest| < |s| && ReadTags(s) == ([tag] + ReadTags(rest).0, ReadTags(rest).1)
  {
  }

  /** The chunking of a stream is invisible: only the bytes decide which tags it yields and how it ends. */
  method ReadChunks(chunks: seq<Bytes>) returns (tags: seq<FlvTag>, outcome: Outcome)
    ensures (tags, outcome) == ReadStream(Flatten(chunks))
  {
    var stream := new ChunkStream(chunks);
    tags, outcome := stream.IterTags();
  }

  lemma {:induction false} FlattenConcat(a: seq<Bytes>, b: seq<Bytes>)
    ensures Flatten(a + b) == Flatten(a) + Flatten(b)
  {
    if a == [] {
      assert a + b == b;
    } else {
      assert (a + b)[1..] == a[1..] + b;
      FlattenConcat(a[1..], b);
    }
  }

  /** Cutting a chunk in two, anywhere and even at its ends, changes nothing a reader can observe. */
  lemma CutsAreInvisible(before: seq<Bytes>, chunk: Bytes, cut: nat, after: seq<Bytes>)
    requires cut <= |chunk|
    ensures ReadStream(Flatten(before + [chunk[..cut], chunk[cut..]] + after)) == ReadStream(Flatten(before + [chunk] + after))
  {
    var halves: seq<Bytes> := [chunk[..cut], chunk[cut..]];
    FlattenConcat(before + halves, after);
    FlattenConcat(before, halves);
    FlattenConcat(before + [chunk], after);
    FlattenConcat(before, [chunk]);
    assert halves[1..] == [chunk[cut..]] && halves[1..][1..] == [];
    assert Flatten(halves) == chunk[..cut] + (chunk[cut..] + []);
    assert Flatten(halves) == chunk;
    assert Flatten([chunk]) == chunk + [] == chunk;
  }
}
