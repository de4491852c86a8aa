// 64-bit lanes and bytes, seen as bits.
module Lanes {
  type Lane = bv64
  type Byte = bv8

  // Rotation to the left, as the source computes it from two shifts.
  function Rol(value: Lane, shift: Lane): Lane
    requires shift < 64
  {
    if shift == 0 then value else (value << shift) | (value >> (64 - shift))
  }

  function Xor(a: Lane, b: Lane): Lane {
    a ^ b
  }

  function AndNot(a: Lane, b: Lane): Lane {
    !a & b
  }

  function Mask(z: nat): Lane {
    if z == 0 then 1 else Mask(z - 1) << 1
  }

  predicate Hits(v: Lane, m: Lane) {
    v & m != 0
  }

  // Bit z of a lane; bit 0 is the least significant.
  predicate Bit(v: Lane, z: nat) {
    Hits(v, Mask(z))
  }

  predicate ByteBit(b: Byte, j: nat) {
    Bit(b as Lane, j)
  }

  // A byte string as a bit string, least significant bits first.
  function BitsOf(bytes: seq<Byte>): (bits: seq<bool>)
    ensures |bits| == 8 * |bytes|
  {
    seq(8 * |bytes|, i requires 0 <= i < 8 * |bytes| => ByteBit(bytes[i / 8], i % 8))
  }

  // The lane with the given bytes, and the bytes of a lane, in little-endian order.
  function LaneOf(bytes: seq<Byte>): Lane {
    if bytes == [] then 0 else (LaneOf(bytes[1..]) << 8) | bytes[0] as Lane
  }

  function BytesFrom(v: Lane, count: nat): (bytes: seq<Byte>)
    ensures |bytes| == count
  {
    if count == 0 then [] else [(v & 0xFF) as Byte] + BytesFrom(v >> 8, count - 1)
  }

  function BytesOf(v: Lane): (bytes: seq<Byte>)
    ensures |bytes| == 8
  {
    BytesFrom(v, 8)
  }

  // ---- masks have one bit ----

  ghost predicate OneHot(m: Lane) {
    m != 0 && m & (m - 1) == 0
  }

  lemma LowMasks()
    ensures Mask(0) == 1 && Mask(1) == 2 && Mask(2) == 4 && Mask(3) == 8
    ensures Mask(4) == 16 && Mask(5) == 32 && Mask(6) == 64 && Mask(7) == 128
    ensures Mask(8) == 256
  {
    assert Mask(1) == 2;
    assert Mask(2) == 4;
    assert Mask(3) == 8;
    assert Mask(4) == 16;
    assert Mask(5) == 32;
    assert Mask(6) == 64;
    assert Mask(7) == 128;
  }

  lemma ShiftsCommute(m: Lane)
    ensures (m << 8) << 1 == (m << 1) << 8
  {
  }

  lemma {:induction false} MaskUp(z: nat)
    ensures Mask(z + 8) == Mask(z) << 8
  {
    hide Mask;
    LowMasks();
    if z > 0 {
      MaskUp(z - 1);
      MaskNext(z - 1);
      MaskNext(z + 7);
      ShiftsCommute(Mask(z - 1));
    }
  }

  lemma MaskNext(z: nat)
    ensures Mask(z + 1) == Mask(z) << 1
  {
  }

  lemma MaskTop()
    ensures Mask(15) == 0x8000 && Mask(31) == 0x8000_0000 && Mask(63) == 0x8000_0000_0000_0000
  {
    hide Mask;
    LowMasks();
    MaskUp(7);
    MaskUp(15);
    MaskUp(23);
    MaskUp(31);
    MaskUp(39);
    MaskUp(47);
    MaskUp(55);
  }

  lemma {:induction false} MaskAlive(z: nat)
    requires z < 64
    ensures Mask(z) != 0
    decreases 64 - z
  {
    if z == 63 {
      MaskTop();
    } else {
      MaskAlive(z + 1);
    }
  }

  lemma {:induction false} MaskOneHot(z: nat)
    requires z < 64
    ensures OneHot(Mask(z))
  {
    if z > 0 {
      MaskOneHot(z - 1);
      MaskAlive(z);
      DoubledOneHot(Mask(z - 1));
    }
  }

  lemma DoubledOneHot(m: Lane)
    requires OneHot(m) && m << 1 != 0
    ensures OneHot(m << 1)
  {
  }

  lemma LowMask(z: nat)
    requires z < 8
    ensures Mask(z) & 0xFF == Mask(z)
  {
    hide Mask;
    LowMasks();
  }

  lemma DoubledGrows(m: Lane)
    requires OneHot(m) && m << 1 != 0
    ensures m < m << 1
  {
  }

  lemma {:induction false} MaskGrows(y: nat, z: nat)
    requires y < z < 64
    ensures Mask(y) < Mask(z)
  {
    hide Mask, OneHot;
    if y + 1 < z {
      MaskGrows(y, z - 1);
    }
    MaskNext(z - 1);
    MaskOneHot(z - 1);
    MaskAlive(z);
    DoubledGrows(Mask(z - 1));
  }

  // ---- bitwise operations, bit by bit ----

  lemma XorMasked(a: Lane, b: Lane, m: Lane)
    requires OneHot(m)
    ensures Hits(a ^ b, m) == (Hits(a, m) != Hits(b, m))
  {
  }

  lemma XorHits(a: Lane, b: Lane, m: Lane)
    requires OneHot(m)
    ensures Hits(Xor(a, b), m) == (Hits(a, m) != Hits(b, m))
  {
    hide Hits, OneHot;
    XorMasked(a, b, m);
  }

  lemma BitXor(a: Lane, b: Lane, z: nat)
    requires z < 64
    ensures Bit(Xor(a, b), z) == (Bit(a, z) != Bit(b, z))
  {
    hide Mask, OneHot, Hits, Xor;
    MaskOneHot(z);
    XorHits(a, b, Mask(z));
  }

  lemma AndNotMasked(a: Lane, b: Lane, c: Lane, m: Lane)
    requires OneHot(m) && c == !a & b
    ensures Hits(c, m) ==> !Hits(a, m) && Hits(b, m)
    ensures !Hits(a, m) && Hits(b, m) ==> Hits(c, m)
  {
  }

  lemma AndNotHits(a: Lane, b: Lane, m: Lane)
    requires OneHot(m)
    ensures Hits(AndNot(a, b), m) == (!Hits(a, m) && Hits(b, m))
  {
    hide Hits, OneHot;
    AndNotMasked(a, b, AndNot(a, b), m);
  }

  lemma BitAndNot(a: Lane, b: Lane, z: nat)
    requires z < 64
    ensures Bit(AndNot(a, b), z) == (!Bit(a, z) && Bit(b, z))
  {
    hide Mask, OneHot, Hits, AndNot;
    MaskOneHot(z);
    AndNotHits(a, b, Mask(z));
  }

  lemma ZeroHits(m: Lane)
    ensures !Hits(0, m)
  {
  }

  lemma BitZero(z: nat)
    ensures !Bit(0, z)
  {
    hide Mask, Hits;
    ZeroHits(Mask(z));
  }

  // ---- rotation by one ----

  function TurnOnce(v: Lane): Lane {
    (v << 1) | (v >> 63)
  }

  lemma TurnedHits(a: Lane, m: Lane)
    ensures Hits(TurnOnce(a), TurnOnce(m)) == Hits(a, m)
  {
  }

  lemma TurnedOneHot(m: Lane)
    requires OneHot(m) && m << 1 != 0
    ensures TurnOnce(m) == m << 1
  {
  }

  lemma MaskTurns(z: nat)
    requires z < 64
    ensures TurnOnce(Mask(z)) == Mask((z + 1) % 64)
  {
    hide Mask, OneHot;
    if z == 63 {
      MaskTop();
      LowMasks();
    } else {
      MaskOneHot(z);
      MaskAlive(z + 1);
      MaskNext(z);
      TurnedOneHot(Mask(z));
    }
  }

  lemma BitTurned(a: Lane, z: nat)
    requires z < 64
    ensures Bit(TurnOnce(a), (z + 1) % 64) == Bit(a, z)
  {
    hide Mask, Hits, TurnOnce;
    MaskTurns(z);
    TurnedHits(a, Mask(z));
  }

  // ---- bytes of a lane ----

  lemma AppendHits(w: Lane, b: Byte, m: Lane)
    requires OneHot(m)
    ensures m & 0xFF == m ==> Hits((w << 8) | b as Lane, m) == Hits(b as Lane, m)
    ensures m << 8 != 0 ==> Hits((w << 8) | b as Lane, m << 8) == Hits(w, m)
  {
  }

  lemma BitAppend(w: Lane, b: Byte, z: nat)
    requires z < 64
    ensures Bit((w << 8) | b as Lane, z) == if z < 8 then ByteBit(b, z) else Bit(w, z - 8)
  {
    hide Mask, OneHot, Hits;
    if z < 8 {
      MaskOneHot(z);
      LowMask(z);
      AppendHits(w, b, Mask(z));
    } else {
      MaskOneHot(z - 8);
      MaskUp(z - 8);
      MaskAlive(z);
      AppendHits(w, b, Mask(z - 8));
    }
  }

  lemma {:induction false} BitLaneOf(bytes: seq<Byte>, z: nat)
    requires z < 8 * |bytes| <= 64
    ensures Bit(LaneOf(bytes), z) == ByteBit(bytes[z / 8], z % 8)
  {
    hide Bit, ByteBit;
    BitAppend(LaneOf(bytes[1..]), bytes[0], z);
    if z >= 8 {
      BitLaneOf(bytes[1..], z - 8);
    }
  }

  lemma SplitHits(v: Lane, m: Lane)
    requires OneHot(m)
    ensures m & 0xFF == m ==> Hits(((v & 0xFF) as Byte) as Lane, m) == Hits(v, m)
    ensures m << 8 != 0 ==> Hits(v >> 8, m) == Hits(v, m << 8)
  {
  }

  lemma BitLowByte(v: Lane, z: nat)
    requires z < 8
    ensures ByteBit((v & 0xFF) as Byte, z) == Bit(v, z)
  {
    hide Mask, OneHot, Hits;
    MaskOneHot(z);
    SplitHits(v, Mask(z));
    LowMask(z);
  }

  lemma BitShiftDown(v: Lane, z: nat)
    requires z + 8 < 64
    ensures Bit(v >> 8, z) == Bit(v, z + 8)
  {
    hide Mask, OneHot, Hits;
    MaskOneHot(z);
    SplitHits(v, Mask(z));
    MaskUp(z);
    MaskAlive(z + 8);
  }

  lemma {:induction false} BitBytesFrom(v: Lane, count: nat, z: nat)
    requires z < 8 * count <= 64
    ensures ByteBit(BytesFrom(v, count)[z / 8], z % 8) == Bit(v, z)
  {
    hide Bit, ByteBit;
    if z < 8 {
      BitLowByte(v, z);
    } else {
      BitBytesFrom(v >> 8, count - 1, z - 8);
      BitShiftDown(v, z - 8);
    }
  }

  // Bits determine bytes.
  lemma ByteByBits(a: Byte, b: Byte)
    requires forall j: nat | j < 8 :: ByteBit(a, j) == ByteBit(b, j)
    ensures a == b
  {
    assert ByteBit(a, 0) == ByteBit(b, 0) && ByteBit(a, 1) == ByteBit(b, 1);
    assert ByteBit(a, 2) == ByteBit(b, 2) && ByteBit(a, 3) == ByteBit(b, 3);
    assert ByteBit(a, 4) == ByteBit(b, 4) && ByteBit(a, 5) == ByteBit(b, 5);
    assert ByteBit(a, 6) == ByteBit(b, 6) && ByteBit(a, 7) == ByteBit(b, 7);
  }

  lemma BitsOfInjective(a: seq<Byte>, b: seq<Byte>)
    requires BitsOf(a) == BitsOf(b)
    ensures a == b
  {
    hide ByteBit;
    assert |a| == |b|;
    forall i | 0 <= i < |a| ensures a[i] == b[i] {
      forall j: nat | j < 8 ensures ByteBit(a[i], j) == ByteBit(b[i], j) {
        assert BitsOf(a)[8 * i + j] == BitsOf(b)[8 * i + j];
      }
      ByteByBits(a[i], b[i]);
    }
  }

  // ---- bytes from bits ----

  function ByteWith(b0: bool, b1: bool, b2: bool, b3: bool, b4: bool, b5: bool, b6: bool, b7: bool): Byte {
    (if b0 then 1 else 0) | (if b1 then 2 else 0) | (if b2 then 4 else 0) | (if b3 then 8 else 0)
    | (if b4 then 16 else 0) | (if b5 then 32 else 0) | (if b6 then 64 else 0) | (if b7 then 128 else 0)
  }

  lemma ByteWithBits(b0: bool, b1: bool, b2: bool, b3: bool, b4: bool, b5: bool, b6: bool, b7: bool)
    ensures var b := ByteWith(b0, b1, b2, b3, b4, b5, b6, b7);
            && ByteBit(b, 0) == b0 && ByteBit(b, 1) == b1 && ByteBit(b, 2) == b2 && ByteBit(b, 3) == b3
            && ByteBit(b, 4) == b4 && ByteBit(b, 5) == b5 && ByteBit(b, 6) == b6 && ByteBit(b, 7) == b7
  {
    LowMasks();
  }

  function ByteAt(bits: seq<bool>, i: nat): Byte
    requires 8 * i + 8 <= |bits|
  {
    ByteWith(bits[8 * i], bits[8 * i + 1], bits[8 * i + 2], bits[8 * i + 3],
             bits[8 * i + 4], bits[8 * i + 5], bits[8 * i + 6], bits[8 * i + 7])
  }

  lemma ByteAtBit(bits: seq<bool>, i: nat, j: nat)
    requires 8 * i + 8 <= |bits| && j < 8
    ensures ByteBit(ByteAt(bits, i), j) == bits[8 * i + j]
  {
    hide ByteBit, ByteWith;
    ByteWithBits(bits[8 * i], bits[8 * i + 1], bits[8 * i + 2], bits[8 * i + 3],
                 bits[8 * i + 4], bits[8 * i + 5], bits[8 * i + 6], bits[8 * i + 7]);
  }

  // Whole bytes have their bits back.
  function Packed(bits: seq<bool>): (bytes: seq<Byte>)
    requires |bits| % 8 == 0
    ensures BitsOf(bytes) == bits
  {
    hide ByteBit, ByteAt;
    var bytes := seq(|bits| / 8, i requires 0 <= i < |bits| / 8 => ByteAt(bits, i));
    assert BitsOf(bytes) == bits by {
      forall k | 0 <= k < |bits| ensures BitsOf(bytes)[k] == bits[k] {
        ByteAtBit(bits, k / 8, k % 8);
      }
    }
    bytes
  }
}
