/** The sequence parameter set: its syntax, written and read, and the displayed size it declares. */
module Sps {
  import opened Wrappers
  import opened Flv
  import opened SpsBits

  datatype Maybe<+T> = Absent | Present(value: T)

  /** One scaling list, as the deltas that are coded for it. */
  type Deltas = seq<int>

  datatype High = High(chroma: nat, separate: bool, lumaDepth: nat, chromaDepth: nat, bypass: bool,
                       matrices: Maybe<seq<Maybe<Deltas>>>)

  datatype Order = Lsb(log2: nat) | Cycle(always: bool, nonRef: int, topToBottom: int, offsets: seq<int>) | Output

  datatype Crop = Crop(left: nat, right: nat, top: nat, bottom: nat)

  datatype Fields = Fields(profile: nat, constraints: nat, level: nat, id: nat, high: Maybe<High>, frameNum: nat, order: Order,
                           references: nat, gaps: bool, widthMinus1: nat, heightMinus1: nat, frameOnly: bool, adaptive: bool,
                           direct: bool, crop: Maybe<Crop>)

  const HIGH_PROFILES := {44, 83, 86, 100, 110, 118, 122, 128, 134, 135, 138, 139, 244}

  /** The profiles of section 7.3.2.1.1 whose parameter sets carry chroma and scaling fields. */
  lemma ProfilesAreTheStandards(profile: nat)
    ensures profile in HIGH_PROFILES <==>
              || profile == 100 || profile == 110 || profile == 122 || profile == 244 || profile == 44 || profile == 83
              || profile == 86 || profile == 118 || profile == 128 || profile == 138 || profile == 139 || profile == 134
              || profile == 135
  {
  }

  // -------------------------------------------------------------- the declared size

  /** Table 6-1: samples per chroma sample, across and down, for the chroma array types that have chroma. */
  function SubWidth(chroma: nat): nat { if chroma == 3 then 1 else 2 }
  function SubHeight(chroma: nat): nat { if chroma == 1 then 2 else 1 }

  function ChromaArrayType(f: Fields): nat {
    match f.high
    case Absent => 1
    case Present(h) => if h.separate then 0 else h.chroma
  }

  function CropUnitX(f: Fields): nat { if ChromaArrayType(f) == 0 then 1 else SubWidth(ChromaArrayType(f)) }

  function CropUnitY(f: Fields): nat {
    (if ChromaArrayType(f) == 0 then 1 else SubHeight(ChromaArrayType(f))) * (if f.frameOnly then 1 else 2)
  }

  function Cropped(f: Fields): Crop { if f.crop.Present? then f.crop.value else Crop(0, 0, 0, 0) }

  /** Section 7.4.2.1.1: the luma samples that the cropping rectangle leaves. */
  function Width(f: Fields): int { (f.widthMinus1 + 1) * 16 - CropUnitX(f) * (Cropped(f).left + Cropped(f).right) }

  function Height(f: Fields): int {
    (if f.frameOnly then 1 else 2) * (f.heightMinus1 + 1) * 16 - CropUnitY(f) * (Cropped(f).top + Cropped(f).bottom)
  }

  // ------------------------------------------------------------------ the syntax

  function Flag(b: bool): Bits { [b] }

  /** The scale after one entry; once it is zero, no more deltas are coded. */
  function NextScale(last: int, delta: int): int { (last + delta + 256) % 256 }

  /** The deltas are exactly those a list of this length needs. */
  predicate Complete(d: Deltas, last: int, next: int, length: nat)
    decreases length
  {
    if length == 0 then d == []
    else if next == 0 then Complete(d, last, next, length - 1)
    else
      && d != []
      && var after := NextScale(last, d[0]); Complete(d[1..], if after == 0 then last else after, after, length - 1)
  }

  function EncodeDeltas(d: Deltas): Bits { if d == [] then [] else EncodeSe(d[0]) + EncodeDeltas(d[1..]) }

  function EncodeList(list: Maybe<Deltas>): Bits {
    match list
    case Absent => Flag(false)
    case Present(d) => Flag(true) + EncodeDeltas(d)
  }

  function EncodeLists(lists: seq<Maybe<Deltas>>): Bits {
    if lists == [] then [] else EncodeList(lists[0]) + EncodeLists(lists[1..])
  }

  function EncodeDepths(h: High): Bits {
    EncodeUe(h.lumaDepth) + EncodeUe(h.chromaDepth) + Flag(h.bypass) + Flag(h.matrices.Present?)
    + (if h.matrices.Present? then EncodeLists(h.matrices.value) else [])
  }

  function EncodeHigh(h: High): Bits {
    EncodeUe(h.chroma) + (if h.chroma == 3 then Flag(h.separate) else []) + EncodeDepths(h)
  }

  function EncodeOrder(o: Order): Bits {
    match o
    case Lsb(log2) => EncodeUe(0) + EncodeUe(log2)
    case Cycle(always, nonRef, topToBottom, offsets) =>
      EncodeUe(1) + Flag(always) + EncodeSe(nonRef) + EncodeSe(topToBottom) + EncodeUe(|offsets|) + EncodeDeltas(offsets)
    case Output => EncodeUe(2)
  }

  function EncodeCrop(c: Maybe<Crop>): Bits {
    match c
    case Absent => Flag(false)
    case Present(r) => Flag(true) + EncodeUe(r.left) + EncodeUe(r.right) + EncodeUe(r.top) + EncodeUe(r.bottom)
  }

  function EncodeSize(f: Fields): Bits {
    EncodeUe(f.references) + Flag(f.gaps) + EncodeUe(f.widthMinus1) + EncodeUe(f.heightMinus1) + Flag(f.frameOnly)
    + (if f.frameOnly then [] else Flag(f.adaptive)) + Flag(f.direct)
  }

  function EncodeHead(f: Fields): Bits
  {
    ToBits(f.profile, 8) + ToBits(f.constraints, 8) + ToBits(f.level, 8) + EncodeUe(f.id)
  }

  function Encode(f: Fields): Bits {
    EncodeHead(f) + (if f.high.Present? then EncodeHigh(f.high.value) else []) + EncodeUe(f.frameNum) + EncodeOrder(f.order)
    + EncodeSize(f) + EncodeCrop(f.crop)
  }

  predicate Ue(v: nat) { v <= LARGEST_UE }
  predicate Se(v: int) { Mapped(v) <= LARGEST_UE }
  predicate AllSe(d: Deltas) { forall v | v in d :: Se(v) }

  function ListLength(index: nat): nat { if index < 6 then 16 else 64 }

  predicate ListsFit(lists: seq<Maybe<Deltas>>, index: nat) {
    forall i | 0 <= i < |lists| && lists[i].Present? ::
      AllSe(lists[i].value) && Complete(lists[i].value, 8, 8, ListLength(index + i))
  }

  predicate HighFits(h: High) {
    && h.chroma <= 3 && (h.separate ==> h.chroma == 3) && Ue(h.lumaDepth) && Ue(h.chromaDepth)
    && (h.matrices.Present? ==>
          |h.matrices.value| == (if h.chroma != 3 then 8 else 12) && ListsFit(h.matrices.value, 0))
  }

  predicate OrderFits(o: Order) {
    match o
    case Lsb(log2) => Ue(log2)
    case Cycle(_, nonRef, topToBottom, offsets) => Se(nonRef) && Se(topToBottom) && Ue(|offsets|) && AllSe(offsets)
    case Output => true
  }

  predicate CropFits(c: Maybe<Crop>) {
    c.Present? ==> Ue(c.value.left) && Ue(c.value.right) && Ue(c.value.top) && Ue(c.value.bottom)
  }

  /** Every field is one the syntax can carry. */
  predicate Fits(f: Fields) {
    && f.profile < 256 && f.constraints < 256 && f.level < 256 && Ue(f.id)
    && (f.high.Present? <==> f.profile in HIGH_PROFILES) && (f.high.Present? ==> HighFits(f.high.value))
    && Ue(f.frameNum) && OrderFits(f.order) && Ue(f.references) && Ue(f.widthMinus1) && Ue(f.heightMinus1) && CropFits(f.crop)
  }

  // ------------------------------------------------------------------- reading it

  /** Read the deltas of one scaling list; only where it ends matters. */
  function SkipList(b: Bits, last: int, next: int, length: nat): Parsed<()>
    decreases length
  {
    if length == 0 then Good((), b)
    else if next == 0 then SkipList(b, last, next, length - 1)
    else
      var d :- ReadSe(b);
      var after := NextScale(last, d.0);
      SkipList(d.1, if after == 0 then last else after, after, length - 1)
  }

  function SkipOne(b: Bits, index: nat): Parsed<()> {
    var present :- ReadU(b, 1);
    if present.0 == 0 then Good((), present.1) else SkipList(present.1, 8, 8, ListLength(index))
  }

  function SkipLists(b: Bits, index: nat, count: nat): Parsed<()>
    requires index <= count
    decreases count - index
  {
    if index == count then Good((), b)
    else
      var one :- SkipOne(b, index);
      SkipLists(one.1, index + 1, count)
  }

  function SkipSe(b: Bits, count: nat): Parsed<()> {
    if count == 0 then Good((), b)
    else
      var v :- ReadSe(b);
      SkipSe(v.1, count - 1)
  }

  function ReadHead(b: Bits): Parsed<nat> {
    var profile :- ReadU(b, 8);
    var constraints :- ReadU(profile.1, 8);
    var level :- ReadU(constraints.1, 8);
    var id :- ReadUe(level.1);
    Good(profile.0, id.1)
  }

  function SkipDepths(b: Bits, chroma: nat): Parsed<()> {
    var luma :- ReadUe(b);
    var chromaDepth :- ReadUe(luma.1);
    var bypass :- ReadU(chromaDepth.1, 1);
    var matrices :- ReadU(bypass.1, 1);
    if matrices.0 == 0 then Good((), matrices.1) else SkipLists(matrices.1, 0, if chroma != 3 then 8 else 12)
  }

  /** The chroma format, and whether its planes are coded separately. */
  function ReadHigh(b: Bits): Parsed<(nat, bool)> {
    var chroma :- ReadUe(b);
    if chroma.0 > 3 then Bad
    else
      var separate :- ReadU(chroma.1, if chroma.0 == 3 then 1 else 0);
      var depths :- SkipDepths(separate.1, chroma.0);
      Good((chroma.0, separate.0 != 0), depths.1)
  }

  function ReadOrder(b: Bits): Parsed<()> {
    var kind :- ReadUe(b);
    if kind.0 == 0 then
      var log2 :- ReadUe(kind.1);
      Good((), log2.1)
    else if kind.0 == 1 then
      var always :- ReadU(kind.1, 1);
      var nonRef :- ReadSe(always.1);
      var topToBottom :- ReadSe(nonRef.1);
      var count :- ReadUe(topToBottom.1);
      SkipSe(count.1, count.0)
    else if kind.0 == 2 then Good((), kind.1)
    else Bad
  }

  datatype Size = Size(widthMinus1: nat, heightMinus1: nat, frameOnly: bool)

  function ReadSize(b: Bits): Parsed<Size> {
    var references :- ReadUe(b);
    var gaps :- ReadU(references.1, 1);
    var width :- ReadUe(gaps.1);
    var height :- ReadUe(width.1);
    var frameOnly :- ReadU(height.1, 1);
    var adaptive :- ReadU(frameOnly.1, if frameOnly.0 == 0 then 1 else 0);
    var direct :- ReadU(adaptive.1, 1);
    Good(Size(width.0, height.0, frameOnly.0 != 0), direct.1)
  }

  function ReadCrop(b: Bits): Parsed<Crop> {
    var present :- ReadU(b, 1);
    if present.0 == 0 then Good(Crop(0, 0, 0, 0), present.1)
    else
      var left :- ReadUe(present.1);
      var right :- ReadUe(left.1);
      var top :- ReadUe(right.1);
      var bottom :- ReadUe(top.1);
      Good(Crop(left.0, right.0, top.0, bottom.0), bottom.1)
  }

  /** The crop units of a chroma array type and the frame flag. */
  function CropUnits(arrayType: nat, frameOnly: nat): (nat, nat)
    requires frameOnly <= 1
  {
    if arrayType == 0 then (1, 2 - frameOnly)
    else (if arrayType == 3 then 1 else 2, (if arrayType == 1 then 2 else 1) * (2 - frameOnly))
  }

  function Dimensions(chroma: (nat, bool), size: Size, crop: Crop): (int, int) {
    var units := CropUnits(if chroma.1 then 0 else chroma.0, if size.frameOnly then 1 else 0);
    ((size.widthMinus1 + 1) * 16 - units.0 * (crop.left + crop.right),
     (if size.frameOnly then 1 else 2) * (size.heightMinus1 + 1) * 16 - units.1 * (crop.top + crop.bottom))
  }

  function ReadGeometry(b: Bits): Parsed<(int, int)> {
    var profile :- ReadHead(b);
    var chroma :- if profile.0 in HIGH_PROFILES then ReadHigh(profile.1) else Good((1, false), profile.1);
    var frameNum :- ReadUe(chroma.1);
    var order :- ReadOrder(frameNum.1);
    var size :- ReadSize(order.1);
    var crop :- ReadCrop(size.1);
    var d := Dimensions(chroma.0, size.0, crop.0);
    if d.0 <= 0 || d.1 <= 0 then Bad else Good(d, crop.1)
  }

  /** The displayed size that a NAL unit declares: only a sequence parameter set does. */
  function SizeOfNal(nal: Bytes): Option<(int, int)> {
    if nal == [] || nal[0] % 32 != 7 then None
    else
      match ReadGeometry(BitsOf(Unescape(nal[1..], 0)))
      case Bad => None
      case Good(d, _) => Some(d)
  }
}
