/** H.264 syntax elements: fixed-width fields, Exp-Golomb codes (section 9.1 of ITU-T H.264), and
    emulation prevention (section 7.4.1), each with its inverse. */
module SpsBits {
  import opened Flv

  type Bits = seq<bool>

  function Bit(b: bool): nat { if b then 1 else 0 }

  function Pow2(n: nat): (p: nat)
    ensures p > 0
  {
    if n == 0 then 1 else 2 * Pow2(n - 1)
  }

  function ToBits(v: nat, n: nat): (b: Bits)
    ensures |b| == n
  {
    if n == 0 then [] else ToBits(v / 2, n - 1) + [v % 2 == 1]
  }

  function FromBits(b: Bits): (v: nat)
    ensures v < Pow2(|b|)
  {
    if b == [] then 0 else FromBits(b[..|b| - 1]) * 2 + Bit(b[|b| - 1])
  }

  lemma {:induction false} FromToBits(v: nat, n: nat)
    requires v < Pow2(n)
    ensures FromBits(ToBits(v, n)) == v
  {
    if n > 0 {
      FromToBits(v / 2, n - 1);
      var b := ToBits(v, n);
      assert b[..|b| - 1] == ToBits(v / 2, n - 1);
    }
  }

  // ----------------------------------------------------------------- reading

  datatype Parsed<+T> = Bad | Good(value: T, rest: Bits) {
    predicate IsFailure() { Bad? }

    function PropagateFailure<U>(): Parsed<U>
      requires Bad?
    {
      Bad
    }

    function Extract(): (T, Bits)
      requires Good?
    {
      (value, rest)
    }
  }

  function ReadU(b: Bits, n: nat): Parsed<nat> { if |b| < n then Bad else Good(FromBits(b[..n]), b[n..]) }

  function LeadingZeros(b: Bits): (z: nat)
    ensures z <= |b| && (z < |b| ==> b[z]) && forall i | 0 <= i < z :: !b[i]
  {
    if b == [] || b[0] then 0 else 1 + LeadingZeros(b[1..])
  }

  const LONGEST_PREFIX := 31

  /** An unsigned Exp-Golomb code of at most 31 leading zeros. */
  function ReadUe(b: Bits): Parsed<nat> {
    var z := LeadingZeros(b);
    if z > LONGEST_PREFIX || z == |b| then Bad
    else
      match ReadU(b[z + 1..], z)
      case Bad => Bad
      case Good(suffix, rest) => Good(Pow2(z) - 1 + suffix, rest)
  }

  function Signed(k: nat): int { if k % 2 == 1 then (k + 1) / 2 else -(k / 2) }

  function ReadSe(b: Bits): Parsed<int> {
    match ReadUe(b)
    case Bad => Bad
    case Good(k, rest) => Good(Signed(k), rest)
  }

  // ------------------------------------------------------------------ writing

  function Log2(n: nat): (z: nat)
    requires n >= 1
    ensures Pow2(z) <= n < Pow2(z + 1)
  {
    if n == 1 then 0 else 1 + Log2(n / 2)
  }

  function Zeros(n: nat): (b: Bits)
    ensures |b| == n && forall i | 0 <= i < n :: !b[i]
  {
    seq(n, _ => false)
  }

  function EncodeUe(v: nat): Bits {
    var z := Log2(v + 1);
    Zeros(z) + [true] + ToBits(v + 1 - Pow2(z), z)
  }

  function Mapped(v: int): nat { if v > 0 then 2 * v - 1 else -2 * v }

  function EncodeSe(v: int): Bits { EncodeUe(Mapped(v)) }

  const LARGEST_UE := 0xFFFF_FFFE

  lemma UReadsBack(v: nat, n: nat, rest: Bits)
    requires v < Pow2(n)
    ensures ReadU(ToBits(v, n) + rest, n) == Good(v, rest)
  {
    FromToBits(v, n);
    var b := ToBits(v, n) + rest;
    assert b[..n] == ToBits(v, n) && b[n..] == rest;
  }

  lemma LeadingZerosOf(z: nat, rest: Bits)
    ensures LeadingZeros(Zeros(z) + [true] + rest) == z
  {
    var b := Zeros(z) + [true] + rest;
    assert b[z] && forall i | 0 <= i < z :: !b[i];
  }

  lemma {:induction false} Pow2Grows(a: nat, b: nat)
    requires a <= b
    ensures Pow2(a) <= Pow2(b)
  {
    if a < b { Pow2Grows(a, b - 1); }
  }

  lemma Pow2Of32()
    ensures Pow2(32) == 0x1_0000_0000
  {
    assert Pow2(8) == 0x100;
    assert Pow2(16) == 0x1_0000;
    assert Pow2(24) == 0x100_0000;
  }

  /** Every unsigned code reads back as its value, exactly up to the largest the reader takes. */
  lemma UeReadsBack(v: nat, rest: Bits)
    ensures ReadUe(EncodeUe(v) + rest) == if v <= LARGEST_UE then Good(v, rest) else Bad
  {
    hide FromBits, ToBits;
    var z := Log2(v + 1);
    var suffix := ToBits(v + 1 - Pow2(z), z);
    assert EncodeUe(v) + rest == Zeros(z) + [true] + (suffix + rest);
    LeadingZerosOf(z, suffix + rest);
    Pow2Of32();
    if z <= 31 { Pow2Grows(z + 1, 32); } else { Pow2Grows(32, z); }
    assert (EncodeUe(v) + rest)[z + 1..] == suffix + rest;
    UReadsBack(v + 1 - Pow2(z), z, rest);
  }

  /** Signed codes read back on the range they map into. */
  lemma SeReadsBack(v: int, rest: Bits)
    requires Mapped(v) <= LARGEST_UE
    ensures ReadSe(EncodeSe(v) + rest) == Good(v, rest)
  {
    hide EncodeUe, ReadUe;
    UeReadsBack(Mapped(v), rest);
  }

  // --------------------------------------------------------- emulation prevention

  /** Drop each 03 that follows two zero bytes. */
  function Unescape(s: Bytes, zeros: nat): Bytes {
    if s == [] then []
    else if zeros >= 2 && s[0] == 3 then Unescape(s[1..], 0)
    else [s[0]] + Unescape(s[1..], if s[0] == 0 then zeros + 1 else 0)
  }

  /** Put a 03 before each byte of at most 03 that follows two zero bytes. */
  function Escape(s: Bytes, zeros: nat): Bytes {
    if s == [] then []
    else if zeros >= 2 && s[0] <= 3 then [3, s[0]] + Escape(s[1..], if s[0] == 0 then 1 else 0)
    else [s[0]] + Escape(s[1..], if s[0] == 0 then zeros + 1 else 0)
  }

  lemma {:induction false} UnescapeInvertsEscape(s: Bytes, zeros: nat)
    ensures Unescape(Escape(s, zeros), zeros) == s
  {
    if s != [] {
      if zeros >= 2 && s[0] <= 3 {
        var next := if s[0] == 0 then 1 else 0;
        var tail := [s[0]] + Escape(s[1..], next);
        assert Escape(s, zeros)[1..] == tail;
        assert tail[1..] == Escape(s[1..], next);
        UnescapeInvertsEscape(s[1..], next);
      } else {
        var next := if s[0] == 0 then zeros + 1 else 0;
        assert Escape(s, zeros)[1..] == Escape(s[1..], next);
        UnescapeInvertsEscape(s[1..], next);
      }
    }
  }

  /** An escaped byte string never holds a start code. */
  lemma {:induction false} EscapedHasNoStartCode(s: Bytes, zeros: nat, k: nat)
    requires k + 2 < |Escape(s, zeros)|
    ensures var e := Escape(s, zeros); !(e[k] == 0 && e[k + 1] == 0 && e[k + 2] <= 2)
  {
    EscapedZeros(s, zeros);
    EscapedRuns(s, zeros, k);
  }

  /** How many zeros the beginning of the rest can still follow. */
  lemma {:induction false} EscapedZeros(s: Bytes, zeros: nat)
    ensures var e := Escape(s, zeros); zeros >= 2 && e != [] ==> e[0] > 2
  {
  }

  lemma {:induction false} EscapedRuns(s: Bytes, zeros: nat, k: nat)
    requires k + 2 < |Escape(s, zeros)|
    ensures var e := Escape(s, zeros); !(e[k] == 0 && e[k + 1] == 0 && e[k + 2] <= 2)
    decreases |s|, k
  {
    var e := Escape(s, zeros);
    var first := if s[0] == 0 then 1 else 0;
    if zeros >= 2 && s[0] <= 3 {
      var rest := Escape(s[1..], first);
      assert e == [3, s[0]] + rest;
      EscapedAfter(s[1..], first);
      if k >= 2 {
        assert e[k] == rest[k - 2] && e[k + 1] == rest[k - 1] && e[k + 2] == rest[k];
        EscapedRuns(s[1..], first, k - 2);
      }
    } else {
      var next := if s[0] == 0 then zeros + 1 else 0;
      var rest := Escape(s[1..], next);
      assert e == [s[0]] + rest;
      EscapedAfter(s[1..], next);
      if k >= 1 {
        assert e[k] == rest[k - 1] && e[k + 1] == rest[k] && e[k + 2] == rest[k + 1];
        EscapedRuns(s[1..], next, k - 1);
      }
    }
  }

  lemma {:induction false} EscapedAfter(s: Bytes, zeros: nat)
    ensures var e := Escape(s, zeros);
            && (zeros >= 2 && |e| > 0 ==> e[0] > 2)
            && (zeros >= 1 && |e| > 1 && e[0] == 0 ==> e[1] > 2)
  {
    var e := Escape(s, zeros);
    if s != [] && zeros == 1 && s[0] == 0 {
      var rest := Escape(s[1..], 2);
      assert e == [s[0]] + rest;
      EscapedZeros(s[1..], 2);
    }
  }

  /** The loop that removes the prevention bytes. */
  method RemoveEmulation(data: Bytes) returns (output: Bytes)
    ensures output == Unescape(data, 0)
  {
    output := [];
    var zeroCount, k := 0, 0;
    while k < |data|
      invariant 0 <= k <= |data| && Unescape(data, 0) == output + Unescape(data[k..], zeroCount)
    {
      var byte := data[k];
      assert data[k..][1..] == data[k + 1..];
      if zeroCount >= 2 && byte == 3 {
        zeroCount := 0;
      } else {
        assert output + ([byte] + Unescape(data[k + 1..], if byte == 0 then zeroCount + 1 else 0))
            == (output + [byte]) + Unescape(data[k + 1..], if byte == 0 then zeroCount + 1 else 0);
        output := output + [byte];
        zeroCount := if byte == 0 then zeroCount + 1 else 0;
      }
      k := k + 1;
    }
  }

  // ------------------------------------------------------------------ bytes and bits

  function BitsOf(s: Bytes): (b: Bits)
    ensures |b| == 8 * |s|
  {
    if s == [] then [] else ToBits(s[0], 8) + BitsOf(s[1..])
  }

  function Pack(b: Bits): (s: Bytes)
    requires |b| % 8 == 0
    ensures |s| == |b| / 8
  {
    if b == [] then []
    else
      assert Pow2(8) == 256;
      [FromBits(b[..8])] + Pack(b[8..])
  }

  lemma OneBitMore(v: nat, bit: bool, n: nat)
    ensures ToBits(v * 2 + Bit(bit), n + 1) == ToBits(v, n) + [bit]
  {
    assert (v * 2 + Bit(bit)) / 2 == v;
  }

  lemma {:induction false} ToFromBits(b: Bits)
    ensures ToBits(FromBits(b), |b|) == b
  {
    if b != [] {
      ToFromBits(b[..|b| - 1]);
      OneBitMore(FromBits(b[..|b| - 1]), b[|b| - 1], |b| - 1);
      assert b == b[..|b| - 1] + [b[|b| - 1]];
      hide ToBits;
    }
  }

  lemma {:induction false} BitsOfPack(b: Bits)
    requires |b| % 8 == 0
    ensures BitsOf(Pack(b)) == b
  {
    if b != [] {
      hide ToBits, FromBits;
      BitsOfPack(b[8..]);
      ToFromBits(b[..8]);
      assert b == b[..8] + b[8..];
      assert Pack(b)[1..] == Pack(b[8..]);
    }
  }
}
