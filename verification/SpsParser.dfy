/** The parser itself, moving one bit reader over the parameter set. */
module SpsParser {
  import opened Wrappers
  import opened Flv
  import opened SpsBits
  import opened SpsReader
  import opened Sps

  method SkipScalingList(reader: BitReader, length: nat) returns (r: Option<()>)
    requires reader.Valid()
    modifies reader
    ensures reader.Valid() && reader.Agrees(r, SkipList(old(reader.Remaining()), 8, 8, length))
  {
    hide ReadSe;
    var lastScale, nextScale, k := 8, 8, 0;
    ghost var all := SkipList(reader.Remaining(), 8, 8, length);
    while k < length
      invariant 0 <= k <= length && reader.Valid()
      invariant SkipList(reader.Remaining(), lastScale, nextScale, length - k) == all
    {
      if nextScale != 0 {
        var delta := reader.SignedExpGolomb();
        if delta.None? { return None; }
        nextScale := NextScale(lastScale, delta.value);
      }
      lastScale := if nextScale != 0 then nextScale else lastScale;
      k := k + 1;
    }
    return Some(());
  }

  method SkipScalingMatrices(reader: BitReader, chroma: nat) returns (r: Option<()>)
    requires reader.Valid()
    modifies reader
    ensures reader.Valid() && reader.Agrees(r, SkipLists(old(reader.Remaining()), 0, if chroma != 3 then 8 else 12))
  {
    hide ReadU, SkipList;
    var count, index := if chroma != 3 then 8 else 12, 0;
    ghost var all := SkipLists(reader.Remaining(), 0, count);
    while index < count
      invariant 0 <= index <= count && reader.Valid()
      invariant SkipLists(reader.Remaining(), index, count) == all
    {
      var present := reader.Read(1);
      if present.None? { return None; }
      if present.value != 0 {
        var list := SkipScalingList(reader, ListLength(index));
        if list.None? { return None; }
      }
      index := index + 1;
    }
    return Some(());
  }

  method Head(reader: BitReader) returns (r: Option<nat>)
    requires reader.Valid()
    modifies reader
    ensures reader.Valid() && reader.Agrees(r, ReadHead(old(reader.Remaining())))
  {
    hide ReadU, ReadUe;
    r := reader.Read(8);
    if r.None? { return; }
    var constraints := reader.Read(8);
    if constraints.None? { return None; }
    var level := reader.Read(8);
    if level.None? { return None; }
    var id := reader.UnsignedExpGolomb();
    if id.None? { return None; }
  }

  method Depths(reader: BitReader, chroma: nat) returns (r: Option<()>)
    requires reader.Valid()
    modifies reader
    ensures reader.Valid() && reader.Agrees(r, SkipDepths(old(reader.Remaining()), chroma))
  {
    hide ReadU, ReadUe, SkipLists;
    var luma := reader.UnsignedExpGolomb();
    if luma.None? { return None; }
    var chromaDepth := reader.UnsignedExpGolomb();
    if chromaDepth.None? { return None; }
    var bypass := reader.Read(1);
    if bypass.None? { return None; }
    var matrices := reader.Read(1);
    if matrices.None? { return None; }
    if matrices.value == 0 { return Some(()); }
    r := SkipScalingMatrices(reader, chroma);
  }

  method HighFields(reader: BitReader) returns (r: Option<(nat, bool)>)
    requires reader.Valid()
    modifies reader
    ensures reader.Valid() && reader.Agrees(r, ReadHigh(old(reader.Remaining())))
  {
    hide ReadU, ReadUe, SkipDepths;
    var chroma := reader.UnsignedExpGolomb();
    if chroma.None? || chroma.value > 3 { return None; }
    var separate := reader.Read(if chroma.value == 3 then 1 else 0);
    if separate.None? { return None; }
    var depths := Depths(reader, chroma.value);
    if depths.None? { return None; }
    return Some((chroma.value, separate.value != 0));
  }

  method Cycles(reader: BitReader) returns (r: Option<()>)
    requires reader.Valid()
    modifies reader
    ensures reader.Valid()
    ensures var b := old(reader.Remaining());
            match ReadUe(b)
            case Bad => r.None?
            case Good(count, rest) => reader.Agrees(r, SkipSe(rest, count))
  {
    hide ReadSe, ReadUe;
    var count := reader.UnsignedExpGolomb();
    if count.None? { return None; }
    var k := 0;
    ghost var all := SkipSe(reader.Remaining(), count.value);
    while k < count.value
      invariant 0 <= k <= count.value && reader.Valid()
      invariant SkipSe(reader.Remaining(), count.value - k) == all
    {
      var offset := reader.SignedExpGolomb();
      if offset.None? { return None; }
      k := k + 1;
    }
    return Some(());
  }

  method PicOrder(reader: BitReader) returns (r: Option<()>)
    requires reader.Valid()
    modifies reader
    ensures reader.Valid() && reader.Agrees(r, ReadOrder(old(reader.Remaining())))
  {
    hide ReadU, ReadUe, ReadSe, SkipSe;
    var kind := reader.UnsignedExpGolomb();
    if kind.None? { return None; }
    if kind.value == 0 {
      var log2 := reader.UnsignedExpGolomb();
      return if log2.None? then None else Some(());
    }
    if kind.value == 1 {
      var always := reader.Read(1);
      if always.None? { return None; }
      var nonRef := reader.SignedExpGolomb();
      if nonRef.None? { return None; }
      var topToBottom := reader.SignedExpGolomb();
      if topToBottom.None? { return None; }
      r := Cycles(reader);
      return;
    }
    return if kind.value == 2 then Some(()) else None;
  }

  method PictureSize(reader: BitReader) returns (r: Option<Size>)
    requires reader.Valid()
    modifies reader
    ensures reader.Valid() && reader.Agrees(r, ReadSize(old(reader.Remaining())))
  {
    hide ReadU, ReadUe;
    var references := reader.UnsignedExpGolomb();
    if references.None? { return None; }
    var gaps := reader.Read(1);
    if gaps.None? { return None; }
    var width := reader.UnsignedExpGolomb();
    if width.None? { return None; }
    var height := reader.UnsignedExpGolomb();
    if height.None? { return None; }
    var frameOnly := reader.Read(1);
    if frameOnly.None? { return None; }
    var adaptive := reader.Read(if frameOnly.value == 0 then 1 else 0);
    if adaptive.None? { return None; }
    var direct := reader.Read(1);
    if direct.None? { return None; }
    return Some(Size(width.value, height.value, frameOnly.value != 0));
  }

  method Cropping(reader: BitReader) returns (r: Option<Crop>)
    requires reader.Valid()
    modifies reader
    ensures reader.Valid() && reader.Agrees(r, ReadCrop(old(reader.Remaining())))
  {
    hide ReadU, ReadUe;
    var present := reader.Read(1);
    if present.None? { return None; }
    if present.value == 0 { return Some(Crop(0, 0, 0, 0)); }
    var left := reader.UnsignedExpGolomb();
    if left.None? { return None; }
    var right := reader.UnsignedExpGolomb();
    if right.None? { return None; }
    var top := reader.UnsignedExpGolomb();
    if top.None? { return None; }
    var bottom := reader.UnsignedExpGolomb();
    if bottom.None? { return None; }
    return Some(Crop(left.value, right.value, top.value, bottom.value));
  }

  method Geometry(reader: BitReader) returns (r: Option<(int, int)>)
    requires reader.Valid()
    modifies reader
    ensures reader.Valid() && reader.Agrees(r, ReadGeometry(old(reader.Remaining())))
  {
    hide ReadHead, ReadHigh, ReadUe, ReadOrder, ReadSize, ReadCrop, Dimensions;
    var profile := Head(reader);
    if profile.None? { return None; }
    var chroma := Some((1, false));
    if profile.value in HIGH_PROFILES {
      chroma := HighFields(reader);
      if chroma.None? { return None; }
    }
    var frameNum := reader.UnsignedExpGolomb();
    if frameNum.None? { return None; }
    var order := PicOrder(reader);
    if order.None? { return None; }
    var size := PictureSize(reader);
    if size.None? { return None; }
    var crop := Cropping(reader);
    if crop.None? { return None; }
    var d := Dimensions(chroma.value, size.value, crop.value);
    return if d.0 <= 0 || d.1 <= 0 then None else Some(d);
  }

  /** The displayed width and height of a parameter set NAL unit, or a refusal. */
  method SpsDimensions(sps: Bytes) returns (r: Option<(int, int)>)
    ensures r == SizeOfNal(sps)
  {
    hide ReadGeometry, BitsOf, Unescape;
    if sps == [] || sps[0] % 32 != 7 { return None; }
    var rbsp := RemoveEmulation(sps[1..]);
    var reader := new BitReader(rbsp);
    r := Geometry(reader);
  }
}
