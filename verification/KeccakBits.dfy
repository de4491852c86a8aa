// The lane-wise hash computes the bit-wise standard.
module KeccakBits {
  import opened Lanes
  import opened Rotations
  import opened KeccakConstants
  import K = Keccak
  import F = Fips202

  function Unpack(s: K.State): (A: F.BitString)
    ensures |A| == F.WIDTH
  {
    seq(F.WIDTH, i requires 0 <= i < F.WIDTH => Bit(s[i / 64], i % 64))
  }

  lemma AtUnpack(s: K.State, x: int, y: int, z: int)
    ensures F.At(Unpack(s), x, y, z) == Bit(s[x % 5 + 5 * (y % 5)], z % 64)
  {
    hide Bit;
    var i := 64 * (5 * (y % 5) + x % 5) + z % 64;
    assert i / 64 == x % 5 + 5 * (y % 5) && i % 64 == z % 64;
  }

  lemma AtBuild(f: (int, int, int) -> bool, x: int, y: int, z: int)
    ensures F.At(F.Build(f), x, y, z) == f(x % 5, y % 5, z % 64)
  {
    var i := 64 * (5 * (y % 5) + x % 5) + z % 64;
    assert i / 64 % 5 == x % 5 && i / 320 == y % 5 && i % 64 == z % 64;
  }

  // ---- theta ----

  lemma ParityBits(s: K.State, x: nat, z: nat)
    requires x < 5 && z < 64
    ensures Bit(K.Parity(s, x), z) == F.Column(Unpack(s), x, z)
  {
    hide Bit, Xor, Unpack, F.At;
    AtUnpack(s, x, 0, z);
    AtUnpack(s, x, 1, z);
    AtUnpack(s, x, 2, z);
    AtUnpack(s, x, 3, z);
    AtUnpack(s, x, 4, z);
    var two := Xor(s[x], s[x + 5]);
    var three := Xor(two, s[x + 10]);
    var four := Xor(three, s[x + 15]);
    BitXor(s[x], s[x + 5], z);
    BitXor(two, s[x + 10], z);
    BitXor(three, s[x + 15], z);
    BitXor(four, s[x + 20], z);
  }

  lemma ColumnWraps(A: F.BitString, x: int, z: int)
    requires |A| == F.WIDTH
    ensures F.Column(A, x, z) == F.Column(A, x % 5, z % 64)
  {
  }

  lemma SpreadBits(s: K.State, x: nat, z: nat)
    requires x < 5 && z < 64
    ensures Bit(K.Spread(s, x), z) == (F.Column(Unpack(s), x - 1, z) != F.Column(Unpack(s), x + 1, z - 1))
  {
    hide Bit, Xor, Unpack, F.Column, K.Parity, Rol;
    var left, right, A := (x + 4) % 5, (x + 1) % 5, Unpack(s);
    ParityBits(s, left, z);
    ParityBits(s, right, (z - 1) % 64);
    BitXor(K.Parity(s, left), Rol(K.Parity(s, right), 1), z);
    BitRol(K.Parity(s, right), 1, z);
    ColumnWraps(A, x - 1, z);
    ColumnWraps(A, x + 1, z - 1);
  }

  lemma ThetaBit(s: K.State, x: nat, y: nat, z: nat)
    requires x < 5 && y < 5 && z < 64
    ensures Bit(Xor(s[x + 5 * y], K.Spread(s, x)), z)
         == (F.At(Unpack(s), x, y, z) != (F.Column(Unpack(s), x - 1, z) != F.Column(Unpack(s), x + 1, z - 1)))
  {
    hide Bit, Xor, Unpack, F.At, F.Column, K.Spread;
    BitXor(s[x + 5 * y], K.Spread(s, x), z);
    SpreadBits(s, x, z);
    AtUnpack(s, x, y, z);
  }

  lemma ThetaRefines(s: K.State)
    ensures Unpack(K.Theta(s)) == F.Theta(Unpack(s))
  {
    hide Bit, Xor, F.At, F.Column, K.Spread;
    forall i | 0 <= i < F.WIDTH ensures Unpack(K.Theta(s))[i] == F.Theta(Unpack(s))[i] {
      ThetaBit(s, i / 64 % 5, i / 320, i % 64);
    }
  }

  // ---- rho and pi ----

  lemma RhoPiRefines(s: K.State)
    ensures Unpack(K.RhoPi(s)) == F.Pi(F.Rho(Unpack(s)))
  {
    forall i | 0 <= i < F.WIDTH ensures Unpack(K.RhoPi(s))[i] == F.Pi(F.Rho(Unpack(s)))[i] {
      RhoPiBit(s, i);
    }
  }

  lemma OffsetWraps(z: nat, n: int)
    ensures (z - n) % 64 == (z - n % 64) % 64
  {
    assert z - n == (z - n % 64) - 64 * (n / 64);
  }

  lemma RhoBit(s: K.State, x: nat, y: nat, z: nat)
    requires x < 5 && y < 5 && z < 64
    ensures F.At(F.Rho(Unpack(s)), x, y, z) == Bit(Rol(s[x + 5 * y], K.OffsetAt(x, y)), z)
  {
    hide Bit, Rol, F.At, F.OffsetOf, K.OffsetAt, Unpack, F.Build;
    var A := Unpack(s);
    AtBuild((x, y, z) => F.At(A, x, y, z - F.OffsetOf(x, y)), x, y, z);
    AtUnpack(s, x, y, z - F.OffsetOf(x, y));
    Offsets(x, y);
    BitRol(s[x + 5 * y], F.OffsetOf(x, y) % 64, z);
    OffsetWraps(z, F.OffsetOf(x, y));
  }

  lemma PiAt(A: F.BitString, i: nat)
    requires |A| == F.WIDTH && i < F.WIDTH
    ensures F.Pi(A)[i] == F.At(A, (i / 64 % 5 + 3 * (i / 320)) % 5, i / 64 % 5, i % 64)
  {
    hide F.At;
    AtWraps(A, i / 64 % 5 + 3 * (i / 320), i / 64 % 5, i % 64);
  }

  lemma RhoPiBit(s: K.State, i: nat)
    requires i < F.WIDTH
    ensures Unpack(K.RhoPi(s))[i] == F.Pi(F.Rho(Unpack(s)))[i]
  {
    hide Bit, Rol, F.At, F.Rho, F.Pi, K.OffsetAt;
    var k := i / 64;
    assert k / 5 == i / 320;
    RhoBit(s, K.SourceX(k), K.SourceY(k), i % 64);
    PiAt(F.Rho(Unpack(s)), i);
  }

  lemma AtWraps(A: F.BitString, x: int, y: int, z: int)
    requires |A| == F.WIDTH
    ensures F.At(A, x, y, z) == F.At(A, x % 5, y % 5, z % 64)
  {
  }

  // ---- chi and iota ----

  lemma ChiBit(s: K.State, x: nat, y: nat, z: nat)
    requires x < 5 && y < 5 && z < 64
    ensures Bit(K.ChiAt(s, x, y), z)
         == (F.At(Unpack(s), x, y, z) != (!F.At(Unpack(s), x + 1, y, z) && F.At(Unpack(s), x + 2, y, z)))
  {
    hide Bit, Xor, AndNot, Unpack, F.At;
    var b0, b1, b2 := s[x + 5 * y], s[(x + 1) % 5 + 5 * y], s[(x + 2) % 5 + 5 * y];
    BitXor(b0, AndNot(b1, b2), z);
    BitAndNot(b1, b2, z);
    AtUnpack(s, x, y, z);
    AtUnpack(s, x + 1, y, z);
    AtUnpack(s, x + 2, y, z);
  }

  lemma ChiRefines(s: K.State)
    ensures Unpack(K.Chi(s)) == F.Chi(Unpack(s))
  {
    hide Bit, F.At, K.ChiAt;
    forall i | 0 <= i < F.WIDTH ensures Unpack(K.Chi(s))[i] == F.Chi(Unpack(s))[i] {
      ChiBit(s, i / 64 % 5, i / 320, i % 64);
    }
  }

  lemma IotaRefines(s: K.State, round: nat)
    requires round < 24
    ensures Unpack(K.Iota(s, K.ROUND_CONSTANTS[round])) == F.Iota(Unpack(s), round)
  {
    hide Bit, Xor, F.At, F.RoundBit;
    var rc := K.ROUND_CONSTANTS[round];
    forall i | 0 <= i < F.WIDTH ensures Unpack(K.Iota(s, rc))[i] == F.Iota(Unpack(s), round)[i] {
      var x, y, z := i / 64 % 5, i / 320, i % 64;
      assert i / 64 == x + 5 * y;
      AtUnpack(s, x, y, z);
      BitXor(s[0], rc, z);
      ConstantBits(round, z);
    }
  }

  // ---- the permutation ----

  lemma RoundRefines(s: K.State, round: nat)
    requires round < 24
    ensures Unpack(K.Round(s, K.ROUND_CONSTANTS[round])) == F.Round(Unpack(s), round)
  {
    hide Unpack, K.Theta, K.RhoPi, K.Chi, K.Iota, F.Theta, F.Rho, F.Pi, F.Chi, F.Iota;
    ThetaRefines(s);
    RhoPiRefines(K.Theta(s));
    ChiRefines(K.RhoPi(K.Theta(s)));
    IotaRefines(K.Chi(K.RhoPi(K.Theta(s))), round);
  }

  lemma {:induction false} RoundsRefine(s: K.State, n: nat)
    requires n <= 24
    ensures Unpack(K.Rounds(s, n)) == F.Rounds(Unpack(s), n)
  {
    hide Unpack, K.Round, F.Round;
    if n > 0 {
      RoundsRefine(s, n - 1);
      RoundRefines(K.Rounds(s, n - 1), n - 1);
    }
  }

  // Two permutations, of lanes and of bits, that do the same.
  ghost predicate Refines(f: K.State -> K.State, g: F.State -> F.State) {
    forall s: K.State :: Unpack(f(s)) == g(Unpack(s))
  }

  lemma PermutationRefines()
    ensures Refines(K.KeccakF, F.KeccakP)
  {
    hide Unpack, K.Round, F.Round;
    forall s: K.State ensures Unpack(K.KeccakF(s)) == F.KeccakP(Unpack(s)) {
      RoundsRefine(s, F.ROUNDS);
    }
  }

  // ---- the sponge ----

  lemma BlankBits()
    ensures Unpack(K.Blank()) == F.Zeros(F.WIDTH)
  {
    hide Bit;
    forall i | 0 <= i < F.WIDTH ensures !Unpack(K.Blank())[i] {
      BitZero(i % 64);
    }
  }

  lemma LaneAtBits(block: seq<Byte>, lane: nat, z: nat)
    requires 8 * lane + 8 <= |block| && z < 64
    ensures Bit(K.LaneAt(block, lane), z) == BitsOf(block)[64 * lane + z]
  {
    hide Bit, ByteBit, LaneOf;
    var bytes := block[8 * lane..8 * lane + 8];
    BitLaneOf(bytes, z);
    var i := 64 * lane + z;
    assert i / 8 == 8 * lane + z / 8 && i % 8 == z % 8;
  }

  lemma XorBlockRefines(s: K.State, block: seq<Byte>)
    requires |block| == K.RATE_BYTES
    ensures Unpack(K.XorBlock(s, block)) == F.Xor(Unpack(s), BitsOf(block) + F.Zeros(F.WIDTH - F.RATE))
  {
    hide Bit, BitsOf, Xor, K.LaneAt;
    forall i | 0 <= i < F.WIDTH
      ensures Unpack(K.XorBlock(s, block))[i] == F.Xor(Unpack(s), BitsOf(block) + F.Zeros(F.WIDTH - F.RATE))[i]
    {
      var k, z := i / 64, i % 64;
      if k < 17 {
        LaneAtBits(block, k, z);
        BitXor(s[k], K.LaneAt(block, k), z);
      }
    }
  }

  lemma BitsOfSplit(p: seq<Byte>, n: nat)
    requires n <= |p|
    ensures BitsOf(p[..n]) == BitsOf(p)[..8 * n] && BitsOf(p[n..]) == BitsOf(p)[8 * n..]
  {
    hide ByteBit;
    forall i | 0 <= i < 8 * (|p| - n) ensures BitsOf(p[n..])[i] == BitsOf(p)[8 * n..][i] {
      assert (8 * n + i) / 8 == n + i / 8 && (8 * n + i) % 8 == i % 8;
    }
  }

  lemma {:induction false} AbsorbRefines(f: K.State -> K.State, g: F.State -> F.State, s: K.State, p: seq<Byte>)
    requires Refines(f, g)
    ensures Unpack(K.Absorb(f, s, p)) == F.Absorb(g, Unpack(s), BitsOf(p))
    decreases |p|
  {
    hide Unpack, BitsOf, K.XorBlock, F.Xor;
    if |p| >= K.RATE_BYTES {
      var block, rest := p[..K.RATE_BYTES], p[K.RATE_BYTES..];
      XorBlockRefines(s, block);
      BitsOfSplit(p, K.RATE_BYTES);
      AbsorbRefines(f, g, f(K.XorBlock(s, block)), rest);
    }
  }

  lemma {:induction false} OutputBitsOf(s: K.State, lanes: nat)
    requires lanes <= 25
    ensures BitsOf(K.Output(s, lanes)) == Unpack(s)[..64 * lanes]
  {
    hide BitsOf, Unpack, BytesOf;
    if lanes > 0 {
      OutputBitsOf(s, lanes - 1);
      BitsOfAppend(K.Output(s, lanes - 1), BytesOf(s[lanes - 1]));
      LaneBits(s, lanes - 1);
    }
  }

  lemma LaneBits(s: K.State, lane: nat)
    requires lane < 25
    ensures BitsOf(BytesOf(s[lane])) == Unpack(s)[64 * lane..64 * lane + 64]
  {
    hide Bit, ByteBit, BytesOf;
    forall z | 0 <= z < 64 ensures BitsOf(BytesOf(s[lane]))[z] == Unpack(s)[64 * lane..64 * lane + 64][z] {
      BitBytesOf(s[lane], z);
      assert (64 * lane + z) / 64 == lane && (64 * lane + z) % 64 == z;
    }
  }

  lemma BitBytesOf(v: Lane, z: nat)
    requires z < 64
    ensures ByteBit(BytesOf(v)[z / 8], z % 8) == Bit(v, z)
  {
    BitBytesFrom(v, 8, z);
  }

  lemma BitsOfAppend(a: seq<Byte>, b: seq<Byte>)
    ensures BitsOf(a + b) == BitsOf(a) + BitsOf(b)
  {
    hide BitsOf;
    BitsOfSplit(a + b, |a|);
    assert (a + b)[..|a|] == a && (a + b)[|a|..] == b;
  }

  lemma SqueezeRefines(f: K.State -> K.State, g: F.State -> F.State, s: K.State)
    ensures BitsOf(K.Squeeze(f, s, [])) == F.Squeeze(g, Unpack(s), [], F.DIGEST)
  {
    hide Unpack, BitsOf, K.Output;
    var output := K.Output(s, 17);
    assert [] + output == output;
    assert K.Squeeze(f, s, []) == output[..32];
    OutputBitsOf(s, 17);
    BitsOfSplit(output, 32);
    assert [] + Unpack(s)[..F.RATE] == BitsOf(output);
  }

  // For every message and every pair of permutations that do the same: hashing
  // bytes is the standard's sponge over the bits of the padded message.
  lemma HashIsSponge(f: K.State -> K.State, g: F.State -> F.State, data: seq<Byte>)
    requires Refines(f, g)
    ensures BitsOf(K.HashWith(f, data)) == F.Sponge(g, BitsOf(K.Padded(data)), F.DIGEST)
  {
    hide Unpack, BitsOf, K.Squeeze, K.Absorb, K.Padded, F.Squeeze, F.Absorb, K.Blank, Refines;
    BlankBits();
    AbsorbRefines(f, g, K.Blank(), K.Padded(data));
    SqueezeRefines(f, g, K.Absorb(f, K.Blank(), K.Padded(data)));
  }
}
