// The padding of the hash: what it keeps apart, and when it is pad10*1.
module KeccakPadding {
  import opened Lanes
  import opened KeccakBits
  import K = Keccak
  import F = Fips202

  lemma PadLength(data: seq<Byte>)
    ensures 2 <= |K.Padded(data)| - |data| <= 137
    ensures |K.Padded(data)| - |data| == 137 <==> |data| % K.RATE_BYTES == 135
  {
  }

  lemma PaddedAt(data: seq<Byte>, i: nat)
    requires |data| <= i < |K.Padded(data)| - 1
    ensures K.Padded(data)[i] == if i == |data| then 1 else 0
  {
  }

  // Different messages are padded to different strings.
  lemma PaddingInjective(a: seq<Byte>, b: seq<Byte>)
    requires K.Padded(a) == K.Padded(b)
    ensures a == b
  {
    hide K.Padded;
    PadLength(a);
    PadLength(b);
    if |a| < |b| {
      PaddedAt(a, |b|);
      PaddedAt(b, |b|);
      assert false;
    } else if |b| < |a| {
      PaddedAt(a, |a|);
      PaddedAt(b, |a|);
      assert false;
    }
    PaddedPrefix(a);
    PaddedPrefix(b);
  }

  lemma PaddedPrefix(data: seq<Byte>)
    ensures data <= K.Padded(data)
  {
  }

  // ---- the padding as bits ----

  lemma EndBits()
    ensures BitsOf([1]) == [true] + F.Zeros(7)
    ensures BitsOf([0x80]) == F.Zeros(7) + [true]
  {
    LowMasks();
  }

  lemma FillerBits(n: nat)
    ensures BitsOf(K.Filler(n)) == F.Zeros(8 * n)
  {
    hide Bit;
    forall i | 0 <= i < 8 * n ensures !BitsOf(K.Filler(n))[i] {
      BitZero(i % 8);
    }
  }

  lemma PadBits(length: nat)
    ensures BitsOf(K.Pad(length)) == [true] + F.Zeros(8 * |K.Pad(length)| - 2) + [true]
  {
    hide BitsOf;
    var n := |K.Pad(length)| - 2;
    BitsOfAppend([1] + K.Filler(n), [0x80]);
    BitsOfAppend([1], K.Filler(n));
    EndBits();
    FillerBits(n);
  }

  lemma PadBitCount(length: nat)
    ensures 8 * |K.Pad(length)| == |F.Pad10Star1(8 * length)| <==> length % K.RATE_BYTES != 135
  {
    var w := (134 - length) % 136;
    FillerBitCount(length, w);
    assert w == 135 <==> length % 136 == 135;
  }

  lemma FillerBitCount(length: nat, w: nat)
    requires w == (134 - length) % 136
    ensures (-8 * length - 2) % 1088 == (8 * w + 14) % 1088
  {
    var q := (134 - length) / 136;
    assert -8 * length - 2 == 8 * w + 14 + 1088 * (q - 1);
  }

  // The padding is that of the standard exactly when the message does not end
  // one byte short of a block: there the standard adds one byte, this code 137.
  lemma PaddingIsStandard(data: seq<Byte>)
    ensures BitsOf(K.Padded(data)) == BitsOf(data) + F.Pad10Star1(8 * |data|) <==> |data| % K.RATE_BYTES != 135
  {
    hide BitsOf, K.Pad;
    BitsOfAppend(data, K.Pad(|data|));
    PadBits(|data|);
    PadBitCount(|data|);
  }

  // Under any two permutations that do the same, the padding decides.
  lemma HashWithStandard(f: K.State -> K.State, g: F.State -> F.State, data: seq<Byte>)
    requires Refines(f, g)
    ensures BitsOf(K.HashWith(f, data)) == F.Sponge(g, BitsOf(K.Padded(data)), F.DIGEST)
    ensures |data| % K.RATE_BYTES != 135 ==>
              BitsOf(K.HashWith(f, data)) == F.Sponge(g, BitsOf(data) + F.Pad10Star1(8 * |data|), F.DIGEST)
  {
    hide BitsOf, K.HashWith, K.Padded, F.Sponge, F.Pad10Star1, Refines;
    HashIsSponge(f, g, data);
    PaddingIsStandard(data);
  }

  // The digest of a message is the standard's sponge over the padded message;
  // unless the message ends one byte short of a block, it is Keccak-256.
  function Digest(data: seq<Byte>): (digest: seq<Byte>)
    ensures |digest| == 32
    ensures BitsOf(digest) == F.Sponge(F.KeccakP, BitsOf(K.Padded(data)), F.DIGEST)
    ensures |data| % K.RATE_BYTES != 135 ==> BitsOf(digest) == F.Keccak256(BitsOf(data))
  {
    hide BitsOf, K.HashWith, K.Padded, K.KeccakF, F.KeccakP, F.Sponge, F.Pad10Star1, Refines;
    PermutationRefines();
    HashWithStandard(K.KeccakF, F.KeccakP, data);
    K.Keccak256(data)
  }

  // 135 zero bytes fit one block under the standard and take two here.
  lemma PaddingDiffers()
    ensures var data := K.Filler(135);
            && |F.Pad10Star1(8 * |data|)| == 8
            && |BitsOf(K.Padded(data))| == 2 * F.RATE
  {
  }
}
