/** Reading a written sequence parameter set gives back its declared size. */
module SpsRoundTrip {
  import opened Wrappers
  import Flv
  import opened SpsBits
  import opened Sps

  lemma FlagReads(b: bool, rest: Bits)
    ensures ReadU(Flag(b) + rest, 1) == Good(Bit(b), rest)
  {
    var s := Flag(b) + rest;
    assert s[..1] == [b] && s[1..] == rest;
    assert [b][..0] == [];
    assert FromBits([b]) == FromBits([]) * 2 + Bit(b);
  }

  lemma NothingReads(rest: Bits)
    ensures ReadU(rest, 0) == Good(0, rest)
  {
    assert rest[..0] == [] && rest[0..] == rest;
  }

  lemma ByteReads(v: nat, rest: Bits)
    requires v < 256
    ensures ReadU(ToBits(v, 8) + rest, 8) == Good(v, rest)
  {
    assert Pow2(8) == 256;
    UReadsBack(v, 8, rest);
  }

  lemma HeadReads(f: Fields, rest: Bits)
    requires Fits(f)
    ensures ReadHead(EncodeHead(f) + rest) == Good(f.profile, rest)
  {
    hide ReadU, ReadUe, EncodeUe, ToBits;
    var r3 := EncodeUe(f.id) + rest;
    var r2 := ToBits(f.level, 8) + r3;
    var r1 := ToBits(f.constraints, 8) + r2;
    assert EncodeHead(f) + rest == ToBits(f.profile, 8) + r1;
    ByteReads(f.profile, r1);
    ByteReads(f.constraints, r2);
    ByteReads(f.level, r3);
    UeReadsBack(f.id, rest);
  }

  lemma {:induction false} DeltasRead(d: Deltas, last: int, next: int, length: nat, rest: Bits)
    requires AllSe(d) && Complete(d, last, next, length)
    ensures SkipList(EncodeDeltas(d) + rest, last, next, length) == Good((), rest)
    decreases length
  {
    hide ReadSe, EncodeSe;
    if length == 0 {
      assert EncodeDeltas(d) + rest == rest;
    } else if next == 0 {
      DeltasRead(d, last, next, length - 1, rest);
    } else {
      assert EncodeDeltas(d) + rest == EncodeSe(d[0]) + (EncodeDeltas(d[1..]) + rest);
      assert d[0] in d;
      SeReadsBack(d[0], EncodeDeltas(d[1..]) + rest);
      var after := NextScale(last, d[0]);
      DeltasRead(d[1..], if after == 0 then last else after, after, length - 1, rest);
    }
  }

  lemma {:induction false} OffsetsRead(d: Deltas, rest: Bits)
    requires AllSe(d)
    ensures SkipSe(EncodeDeltas(d) + rest, |d|) == Good((), rest)
  {
    hide ReadSe, EncodeSe;
    if d == [] {
      assert EncodeDeltas(d) + rest == rest;
    } else {
      assert EncodeDeltas(d) + rest == EncodeSe(d[0]) + (EncodeDeltas(d[1..]) + rest);
      assert d[0] in d;
      SeReadsBack(d[0], EncodeDeltas(d[1..]) + rest);
      OffsetsRead(d[1..], rest);
    }
  }

  lemma {:induction false} ListsRead(lists: seq<Maybe<Deltas>>, index: nat, rest: Bits)
    requires ListsFit(lists, index)
    ensures SkipLists(EncodeLists(lists) + rest, index, index + |lists|) == Good((), rest)
    decreases |lists|
  {
    hide EncodeList, SkipOne, ListsFit;
    if lists == [] {
      assert EncodeLists(lists) + rest == rest;
    } else {
      var tail := EncodeLists(lists[1..]) + rest;
      assert EncodeLists(lists) + rest == EncodeList(lists[0]) + tail;
      TailFits(lists, index);
      ListReads(lists[0], index, tail);
      ListsRead(lists[1..], index + 1, rest);
    }
  }

  lemma ListReads(list: Maybe<Deltas>, index: nat, rest: Bits)
    requires list.Present? ==> AllSe(list.value) && Complete(list.value, 8, 8, ListLength(index))
    ensures SkipOne(EncodeList(list) + rest, index) == Good((), rest)
  {
    hide ReadU, EncodeDeltas, SkipList, Complete, ListLength;
    match list
    case Absent => FlagReads(false, rest);
    case Present(d) =>
      assert EncodeList(list) + rest == Flag(true) + (EncodeDeltas(d) + rest);
      FlagReads(true, EncodeDeltas(d) + rest);
      DeltasRead(d, 8, 8, ListLength(index), rest);
  }

  lemma TailFits(lists: seq<Maybe<Deltas>>, index: nat)
    requires lists != [] && ListsFit(lists, index)
    ensures ListsFit(lists[1..], index + 1)
    ensures lists[0].Present? ==> AllSe(lists[0].value) && Complete(lists[0].value, 8, 8, ListLength(index))
  {
    hide Complete, AllSe, ListLength;
    forall i | 0 <= i < |lists[1..]| && lists[1..][i].Present?
      ensures AllSe(lists[1..][i].value) && Complete(lists[1..][i].value, 8, 8, ListLength(index + 1 + i))
    {
      assert lists[1..][i] == lists[i + 1];
      assert index + (i + 1) == index + 1 + i;
    }
  }

  lemma MatricesRead(h: High, rest: Bits)
    requires HighFits(h)
    ensures var b := (if h.matrices.Present? then EncodeLists(h.matrices.value) else []) + rest;
            (if h.matrices.Present? then SkipLists(b, 0, if h.chroma != 3 then 8 else 12) else Good((), b)) == Good((), rest)
  {
    hide EncodeLists, SkipLists, ListsFit;
    if h.matrices.Present? {
      ListsRead(h.matrices.value, 0, rest);
    } else {
      assert [] + rest == rest;
    }
  }

  lemma SeparateReads(h: High, rest: Bits)
    requires HighFits(h)
    ensures ReadU((if h.chroma == 3 then Flag(h.separate) else []) + rest, if h.chroma == 3 then 1 else 0) ==
            Good(Bit(h.separate), rest)
  {
    hide ReadU;
    if h.chroma == 3 {
      FlagReads(h.separate, rest);
    } else {
      assert [] + rest == rest;
      NothingReads(rest);
    }
  }

  lemma DepthsRead(h: High, rest: Bits)
    requires HighFits(h)
    ensures SkipDepths(EncodeDepths(h) + rest, h.chroma) == Good((), rest)
  {
    hide ReadU, ReadUe, EncodeUe, EncodeLists, SkipLists, ListsFit;
    var r4 := (if h.matrices.Present? then EncodeLists(h.matrices.value) else []) + rest;
    var r3 := Flag(h.matrices.Present?) + r4;
    var r2 := Flag(h.bypass) + r3;
    var r1 := EncodeUe(h.chromaDepth) + r2;
    assert EncodeDepths(h) + rest == EncodeUe(h.lumaDepth) + r1;
    UeReadsBack(h.lumaDepth, r1);
    UeReadsBack(h.chromaDepth, r2);
    FlagReads(h.bypass, r3);
    FlagReads(h.matrices.Present?, r4);
    MatricesRead(h, rest);
  }

  lemma HighReads(h: High, rest: Bits)
    requires HighFits(h)
    ensures ReadHigh(EncodeHigh(h) + rest) == Good((h.chroma, h.separate), rest)
  {
    hide ReadU, ReadUe, EncodeUe, EncodeDepths, SkipDepths, ListsFit;
    var r2 := EncodeDepths(h) + rest;
    var r1 := (if h.chroma == 3 then Flag(h.separate) else []) + r2;
    assert EncodeHigh(h) + rest == EncodeUe(h.chroma) + r1;
    UeReadsBack(h.chroma, r1);
    SeparateReads(h, r2);
    DepthsRead(h, rest);
  }

  lemma OrderReads(o: Order, rest: Bits)
    requires OrderFits(o)
    ensures ReadOrder(EncodeOrder(o) + rest) == Good((), rest)
  {
    hide ReadU, ReadUe, EncodeUe, ReadSe, EncodeSe, SkipSe, EncodeDeltas;
    match o
    case Lsb(log2) =>
      assert EncodeOrder(o) + rest == EncodeUe(0) + (EncodeUe(log2) + rest);
      UeReadsBack(0, EncodeUe(log2) + rest);
      UeReadsBack(log2, rest);
    case Cycle(always, nonRef, topToBottom, offsets) =>
      var r4 := EncodeDeltas(offsets) + rest;
      var r3 := EncodeUe(|offsets|) + r4;
      var r2 := EncodeSe(topToBottom) + r3;
      var r1 := EncodeSe(nonRef) + r2;
      var r0 := Flag(always) + r1;
      assert EncodeOrder(o) + rest == EncodeUe(1) + r0;
      UeReadsBack(1, r0);
      FlagReads(always, r1);
      SeReadsBack(nonRef, r2);
      SeReadsBack(topToBottom, r3);
      UeReadsBack(|offsets|, r4);
      OffsetsRead(offsets, rest);
    case Output => UeReadsBack(2, rest);
  }

  lemma AdaptiveReads(f: Fields, rest: Bits)
    ensures ReadU((if f.frameOnly then [] else Flag(f.adaptive)) + rest, if Bit(f.frameOnly) == 0 then 1 else 0).Good?
    ensures ReadU((if f.frameOnly then [] else Flag(f.adaptive)) + rest, if Bit(f.frameOnly) == 0 then 1 else 0).rest == rest
  {
    hide ReadU;
    if f.frameOnly {
      assert [] + rest == rest;
      NothingReads(rest);
    } else {
      FlagReads(f.adaptive, rest);
    }
  }

  lemma SizeReads(f: Fields, rest: Bits)
    requires Fits(f)
    ensures ReadSize(EncodeSize(f) + rest) == Good(Size(f.widthMinus1, f.heightMinus1, f.frameOnly), rest)
  {
    hide ReadU, ReadUe, EncodeUe, HighFits, OrderFits, CropFits;
    var r6 := Flag(f.direct) + rest;
    var r5 := (if f.frameOnly then [] else Flag(f.adaptive)) + r6;
    var r4 := Flag(f.frameOnly) + r5;
    var r3 := EncodeUe(f.heightMinus1) + r4;
    var r2 := EncodeUe(f.widthMinus1) + r3;
    var r1 := Flag(f.gaps) + r2;
    assert EncodeSize(f) + rest == EncodeUe(f.references) + r1;
    UeReadsBack(f.references, r1);
    FlagReads(f.gaps, r2);
    UeReadsBack(f.widthMinus1, r3);
    UeReadsBack(f.heightMinus1, r4);
    FlagReads(f.frameOnly, r5);
    AdaptiveReads(f, r6);
    FlagReads(f.direct, rest);
  }

  lemma CropReads(f: Fields, rest: Bits)
    requires CropFits(f.crop)
    ensures ReadCrop(EncodeCrop(f.crop) + rest) == Good(Cropped(f), rest)
  {
    hide ReadU, ReadUe, EncodeUe;
    match f.crop
    case Absent => FlagReads(false, rest);
    case Present(c) =>
      var r3 := EncodeUe(c.bottom) + rest;
      var r2 := EncodeUe(c.top) + r3;
      var r1 := EncodeUe(c.right) + r2;
      var r0 := EncodeUe(c.left) + r1;
      assert EncodeCrop(f.crop) + rest == Flag(true) + r0;
      FlagReads(true, r0);
      UeReadsBack(c.left, r1);
      UeReadsBack(c.right, r2);
      UeReadsBack(c.top, r3);
      UeReadsBack(c.bottom, rest);
  }

  /** The size computed from the fields read is the one of section 7.4.2.1.1. */
  lemma DimensionsAreDeclared(f: Fields)
    requires Fits(f)
    ensures var chroma := if f.high.Present? then (f.high.value.chroma, f.high.value.separate) else (1, false);
            Dimensions(chroma, Size(f.widthMinus1, f.heightMinus1, f.frameOnly), Cropped(f)) == (Width(f), Height(f))
  {
    hide OrderFits, CropFits, ListsFit;
  }

  /** Every parameter set that the syntax can carry reads back as its declared size, whatever follows;
      one that crops everything away is refused. */
  lemma GeometryReadsBack(f: Fields, rest: Bits)
    requires Fits(f)
    ensures ReadGeometry(Encode(f) + rest) ==
            if Width(f) > 0 && Height(f) > 0 then Good((Width(f), Height(f)), rest) else Bad
  {
    hide ReadHead, EncodeHead, ReadHigh, EncodeHigh, ReadUe, EncodeUe, ReadOrder, EncodeOrder, ReadSize, EncodeSize,
         ReadCrop, EncodeCrop, Dimensions, Width, Height, Cropped, HighFits, OrderFits, CropFits;
    var r5 := EncodeCrop(f.crop) + rest;
    var r4 := EncodeSize(f) + r5;
    var r3 := EncodeOrder(f.order) + r4;
    var r2 := EncodeUe(f.frameNum) + r3;
    var r1 := (if f.high.Present? then EncodeHigh(f.high.value) else []) + r2;
    assert Encode(f) + rest == EncodeHead(f) + r1;
    HeadReads(f, r1);
    if f.high.Present? { HighReads(f.high.value, r2); } else { assert [] + r2 == r2; }
    UeReadsBack(f.frameNum, r3);
    OrderReads(f.order, r4);
    SizeReads(f, r5);
    CropReads(f, rest);
    DimensionsAreDeclared(f);
  }

  /** Bits with a stop bit and zeros behind them, whole bytes in all. */
  function Trailed(bits: Bits): (b: Bits)
    ensures |b| % 8 == 0
  {
    bits + [true] + Zeros(7 - |bits| % 8)
  }

  /** A NAL unit of a parameter set, as it is sent: a header byte, then the escaped payload. */
  function NalOf(header: Flv.Byte, f: Fields): Flv.Bytes { [header] + Escape(Pack(Trailed(Encode(f))), 0) }

  /** Sent and escaped, every parameter set still reads back as its declared size. */
  lemma NalReadsBack(header: Flv.Byte, f: Fields)
    requires Fits(f)
    ensures ReadGeometry(BitsOf(Unescape(NalOf(header, f)[1..], 0))) ==
            if Width(f) > 0 && Height(f) > 0
            then Good((Width(f), Height(f)), Trailed(Encode(f))[|Encode(f)|..]) else Bad
  {
    hide ReadGeometry, Encode, Width, Height, Fits, Pack, BitsOf, Escape, Unescape;
    var packed := Pack(Trailed(Encode(f)));
    assert NalOf(header, f)[1..] == Escape(packed, 0);
    UnescapeInvertsEscape(packed, 0);
    BitsOfPack(Trailed(Encode(f)));
    var rest := Trailed(Encode(f))[|Encode(f)|..];
    assert Trailed(Encode(f)) == Encode(f) + rest;
    GeometryReadsBack(f, rest);
  }

  /** What the parser returns for a unit that was sent: the declared size, unless everything is cropped away or the
      header is not that of a sequence parameter set. */
  lemma SizeReadsBack(header: Flv.Byte, f: Fields)
    requires Fits(f)
    ensures SizeOfNal(NalOf(header, f)) ==
            if header % 32 == 7 && Width(f) > 0 && Height(f) > 0 then Some((Width(f), Height(f))) else None
  {
    hide ReadGeometry, Encode, Width, Height, Fits, Pack, BitsOf, Escape, Unescape, Trailed;
    NalReadsBack(header, f);
    assert NalOf(header, f)[0] == header;
  }
}
