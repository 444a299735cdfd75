/** The bit reader: a cursor over bytes that reads the syntax elements. */
module SpsReader {
  import opened Wrappers
  import opened Flv
  import opened SpsBits

  lemma {:induction false} ToBitsAt(v: nat, n: nat, i: nat)
    requires i < n
    ensures ToBits(v, n)[i] == (v / Pow2(n - 1 - i) % 2 == 1)
  {
    if i < n - 1 {
      ToBitsAt(v / 2, n - 1, i);
      HalfThenPow(v, n - 2 - i);
    } else {
      assert Pow2(0) == 1;
    }
  }

  lemma HalfThenPow(v: nat, k: nat)
    ensures v / 2 / Pow2(k) == v / Pow2(k + 1)
  {
    var p := Pow2(k);
    var q := v / 2 / p;
    var r := v / 2 % p;
    assert v / 2 == q * p + r;
    assert v == (q * p + r) * 2 + v % 2;
    assert v == q * (2 * p) + (2 * r + v % 2);
    QuotientIs(v, 2 * p, q, 2 * r + v % 2);
  }

  lemma QuotientIs(v: nat, d: nat, q: nat, r: nat)
    requires d > 0 && v == q * d + r && r < d
    ensures v / d == q
  {
    assert (v / d - q) * d == r - v % d;
    Multiples(v / d - q, d);
  }

  lemma Multiples(x: int, d: nat)
    requires d > 0
    ensures x >= 1 ==> x * d >= d
    ensures x <= -1 ==> x * d + d <= 0
  {
  }

  lemma {:induction false} BitOfByte(s: Bytes, p: nat)
    requires p < 8 * |s|
    ensures BitsOf(s)[p] == (s[p / 8] / Pow2(7 - p % 8) % 2 == 1)
  {
    if p < 8 {
      ToBitsAt(s[0], 8, p);
    } else {
      BitOfByte(s[1..], p - 8);
      assert (p - 8) / 8 == p / 8 - 1 && (p - 8) % 8 == p % 8;
    }
  }

  lemma SlicesAt(all: Bits, start: nat, count: nat)
    requires start + count <= |all|
    ensures all[start..][..count] == all[start..start + count] && all[start..][count..] == all[start + count..]
  {
  }

  class BitReader {
    const data: Bytes
    var position: nat

    ghost predicate Valid()
      reads this
    {
      position <= 8 * |data|
    }

    ghost function Remaining(): Bits
      requires Valid()
      reads this
    {
      BitsOf(data)[position..]
    }

    constructor (data: Bytes)
      ensures Valid() && Remaining() == BitsOf(data)
    {
      this.data, position := data, 0;
    }

    /** The reader is where the specification leaves the bits, or both refuse. */
    ghost predicate Agrees<T>(r: Option<T>, spec: Parsed<T>)
      requires Valid()
      reads this
    {
      match spec
      case Bad => r.None?
      case Good(value, rest) => r == Some(value) && Remaining() == rest
    }

    method Read(count: nat) returns (r: Option<nat>)
      requires Valid()
      modifies `position
      ensures Valid() && Agrees(r, ReadU(old(Remaining()), count))
    {
      hide BitsOf, FromBits, Pow2;
      if position + count > 8 * |data| { return None; }
      var value, k := 0, 0;
      ghost var all := BitsOf(data);
      NoBits(all, position);
      while k < count
        invariant 0 <= k <= count && position == old(position) + k
        invariant value == FromBits(all[old(position)..position])
      {
        BitOfByte(data, position);
        NextBit(all, old(position), position);
        value := value * 2 + data[position / 8] / Pow2(7 - position % 8) % 2;
        position := position + 1;
        k := k + 1;
      }
      SlicesAt(all, old(position), count);
      return Some(value);
    }

    /** Count zeros up to the first one, then read that many bits. */
    method UnsignedExpGolomb() returns (r: Option<nat>)
      requires Valid()
      modifies `position
      ensures Valid() && Agrees(r, ReadUe(old(Remaining())))
    {
      hide BitsOf, FromBits, ReadUe, LeadingZeros, Pow2;
      ghost var b := Remaining();
      var leadingZeros := 0;
      while true
        invariant Valid() && leadingZeros <= LONGEST_PREFIX && leadingZeros <= |b| && Remaining() == b[leadingZeros..]
        invariant forall i | 0 <= i < leadingZeros :: !b[i]
        decreases |b| - leadingZeros
      {
        OneBit(b[leadingZeros..]);
        var bit := Read(1);
        if bit.None? {
          AllZeros(b, leadingZeros);
          return None;
        }
        assert b[leadingZeros..][1..] == b[leadingZeros + 1..];
        if bit.value == 1 { break; }
        leadingZeros := leadingZeros + 1;
        if leadingZeros > LONGEST_PREFIX {
          TooManyZeros(b, leadingZeros);
          return None;
        }
      }
      ZerosThenOne(b, leadingZeros);
      UeBehindZeros(b, leadingZeros);
      r := Read(leadingZeros);
      if r.Some? { r := Some(Pow2(leadingZeros) - 1 + r.value); }
    }

    method SignedExpGolomb() returns (r: Option<int>)
      requires Valid()
      modifies `position
      ensures Valid() && Agrees(r, ReadSe(old(Remaining())))
    {
      hide ReadUe;
      var k := UnsignedExpGolomb();
      if k.None? { return None; }
      var half: int := k.value / 2;
      return Some(if k.value % 2 == 1 then half + 1 else -half);
    }
  }

  lemma NextBit(all: Bits, start: nat, p: nat)
    requires start <= p < |all|
    ensures FromBits(all[start..p + 1]) == FromBits(all[start..p]) * 2 + Bit(all[p])
  {
    var b := all[start..p + 1];
    assert b[..|b| - 1] == all[start..p] && b[|b| - 1] == all[p];
  }

  lemma NoBits(all: Bits, start: nat)
    requires start <= |all|
    ensures FromBits(all[start..start]) == 0
  {
  }

  lemma OneBit(b: Bits)
    ensures ReadU(b, 1) == if b == [] then Bad else Good(Bit(b[0]), b[1..])
  {
    if b != [] {
      assert b[..1][..0] == [];
      assert FromBits(b[..1]) == FromBits([]) * 2 + Bit(b[0]);
    }
  }

  lemma AllZeros(b: Bits, z: nat)
    requires z == |b| && forall i | 0 <= i < z :: !b[i]
    ensures ReadUe(b).Bad?
  {
  }

  lemma TooManyZeros(b: Bits, z: nat)
    requires LONGEST_PREFIX < z <= |b| && forall i | 0 <= i < z :: !b[i]
    ensures ReadUe(b).Bad?
  {
  }

  lemma UeBehindZeros(b: Bits, z: nat)
    requires z < |b| && z <= LONGEST_PREFIX && LeadingZeros(b) == z
    ensures ReadUe(b) == match ReadU(b[z + 1..], z)
                         case Bad => Bad
                         case Good(suffix, rest) => Good(Pow2(z) - 1 + suffix, rest)
  {
    hide LeadingZeros, ReadU, Pow2, FromBits;
  }

  lemma ZerosThenOne(b: Bits, z: nat)
    requires z < |b| && b[z] && forall i | 0 <= i < z :: !b[i]
    ensures LeadingZeros(b) == z
  {
    var found := LeadingZeros(b);
    assert b[z];
  }
}
