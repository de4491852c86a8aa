// Builder and checker with a hash each: the schedule needs them to agree on three
// lengths only, and the source's hash agrees there with the standard's.
module SharedHash {
  import opened Words
  import opened Lanes
  import opened MerkleTree
  import opened JobAuthorizer
  import opened JobSchedule
  import KeccakPadding
  import F = Fips202

  ghost predicate SameAt(h: Hasher, g: Hasher, n: nat) {
    forall d: Bytes | |d| == n :: h(d) == g(d)
  }

  // The domain string, a pair of digests and an encoding.
  ghost predicate Alike(h: Hasher, g: Hasher) {
    SameAt(h, g, 15) && SameAt(h, g, 64) && SameAt(h, g, 160)
  }

  lemma LeafAlike(h: Hasher, g: Hasher, job: ChainJob)
    requires Alike(h, g)
    ensures AbiEncode(h, job) == AbiEncode(g, job) && LeafFor(h, job) == LeafFor(g, job)
  {
    hide ToBytes;
  }

  lemma EncodingsAlike(h: Hasher, g: Hasher, jobs: seq<Job>)
    requires Alike(h, g) && AllEncodable(jobs)
    ensures Encodings(h, jobs) == Encodings(g, jobs)
    ensures LeavesOf(h, Encodings(h, jobs)) == LeavesOf(g, Encodings(g, jobs))
  {
    hide Alike, AbiEncode, Encodable, OnChain;
    forall i | 0 <= i < |jobs|
      ensures AbiEncode(h, OnChain(jobs[i])) == AbiEncode(g, OnChain(jobs[i]))
      ensures h(AbiEncode(h, OnChain(jobs[i]))) == g(AbiEncode(g, OnChain(jobs[i])))
    {
      assert jobs[i] in jobs;
      LeafAlike(h, g, OnChain(jobs[i]));
    }
  }

  lemma {:induction false} LayersAlike(h: Hasher, g: Hasher, leaves: seq<Digest>, k: nat)
    requires Alike(h, g)
    ensures LayerAt(h, leaves, k) == LayerAt(g, leaves, k)
  {
    hide PairAt;
    if k > 0 {
      LayersAlike(h, g, leaves, k - 1);
    }
  }

  // Both build the same tree, so the same root and the same proofs.
  lemma TreesAlike(h: Hasher, g: Hasher, jobs: seq<Job>)
    requires Alike(h, g) && AllEncodable(jobs)
    ensures Layers(h, LeavesOf(h, Encodings(h, jobs))) == Layers(g, LeavesOf(g, Encodings(g, jobs)))
    ensures jobs != [] ==> RootOf(h, jobs) == RootOf(g, jobs)
  {
    hide Alike, AllEncodable, LayerAt, Height, Encodings, LeavesOf;
    EncodingsAlike(h, g, jobs);
    var leaves := LeavesOf(g, Encodings(g, jobs));
    forall k: nat ensures LayerAt(h, leaves, k) == LayerAt(g, leaves, k) {
      LayersAlike(h, g, leaves, k);
    }
  }

  lemma {:induction false} FoldsAlike(h: Hasher, g: Hasher, leaf: Digest, siblings: seq<Digest>)
    requires Alike(h, g)
    ensures Fold(h, leaf, siblings) == Fold(g, leaf, siblings)
  {
    hide OrderedPair;
    if siblings != [] {
      FoldsAlike(h, g, leaf, siblings[..|siblings| - 1]);
    }
  }

  // Both give the same verdict on every job, proof and root.
  lemma VerdictsAlike(h: Hasher, g: Hasher, root: Digest, job: ChainJob, siblings: seq<Digest>)
    requires Alike(h, g)
    ensures Accepts(h, root, job, siblings) <==> Accepts(g, root, job, siblings)
  {
    hide Alike, Fold, LeafFor;
    LeafAlike(h, g, job);
    FoldsAlike(h, g, LeafFor(g, job), siblings);
  }

  // What the builder schedules with one hash the checker accepts with the other.
  lemma AcceptedAcross(h: Hasher, g: Hasher, jobs: seq<Job>, i: nat)
    requires Alike(h, g) && AllEncodable(jobs) && i < |jobs|
    ensures var r := ProofFrom(Layers(h, LeavesOf(h, Encodings(h, jobs))), 0, i);
            && r.Ok?
            && |r.value| == Height(|jobs|)
            && Accepts(g, RootOf(h, jobs), OnChain(jobs[i]), r.value)
  {
    hide Alike, Accepts, Layers, ProofFrom, Height, RootOf, Encodings, LeavesOf, OnChain, Encodable;
    assert jobs[i] in jobs;
    TreesAlike(h, g, jobs);
    ScheduledIsAccepted(g, jobs, i);
  }

  // What the checker accepts with its hash the builder scheduled with the other,
  // or two strings have one digest under the checker's hash.
  lemma ScheduledAcross(h: Hasher, g: Hasher, jobs: seq<Job>, job: ChainJob, siblings: seq<Digest>)
    requires Alike(h, g) && AllEncodable(jobs) && jobs != [] && Typed(job)
    requires Accepts(g, RootOf(h, jobs), job, siblings)
    ensures (exists i :: 0 <= i < |jobs| && job == OnChain(jobs[i]))
         || Collision(g, Encodings(g, jobs), AbiEncode(g, job), siblings)
  {
    hide Alike, Accepts, Layers, RootOf, Encodings, OnChain, Encodable, Typed, Collision, AbiEncode;
    TreesAlike(h, g, jobs);
    AcceptedIsScheduled(g, jobs, job, siblings);
  }

  // ---- the source's hash and the standard's ----

  ghost predicate IsKeccak256(g: Hasher) {
    forall d: Bytes :: BitsOf(g(d)) == F.Keccak256(BitsOf(d))
  }

  // There is such a hash: the standard's bits, packed into bytes.
  function StandardHash(): (g: Hasher)
    ensures IsKeccak256(g)
  {
    hide BitsOf, F.Sponge;
    (d: Bytes) => Packed(F.Keccak256(BitsOf(d)))
  }

  lemma AlikeOffResidue(h: Hasher, g: Hasher)
    requires forall d: Bytes | |d| % 136 != 135 :: h(d) == g(d)
    ensures Alike(h, g)
  {
    hide SameAt;
    SameAtLength(h, g, 15);
    SameAtLength(h, g, 64);
    SameAtLength(h, g, 160);
  }

  lemma SameAtLength(h: Hasher, g: Hasher, n: nat)
    requires forall d: Bytes | |d| % 136 != 135 :: h(d) == g(d)
    requires n % 136 != 135
    ensures SameAt(h, g, n)
  {
    forall d: Bytes | |d| == n ensures h(d) == g(d) {
      assert |d| % 136 != 135;
    }
  }

  // The source's digest is that of any correct Keccak-256, unless the message
  // ends one byte short of a block.
  function BuilderDigest(d: Bytes): (r: Digest)
    ensures |d| % 136 != 135 ==> forall g: Hasher | IsKeccak256(g) :: g(d) == r
  {
    hide BitsOf, F.Keccak256, F.Sponge, IsKeccak256;
    var r := KeccakPadding.Digest(d);
    assert |d| % 136 != 135 ==> forall g: Hasher | IsKeccak256(g) :: g(d) == r by {
      forall g: Hasher | |d| % 136 != 135 && IsKeccak256(g) ensures g(d) == r {
        KeccakBitsOf(g, d);
        BitsOfInjective(g(d), r);
      }
    }
    r
  }

  lemma KeccakBitsOf(g: Hasher, d: Bytes)
    requires IsKeccak256(g)
    ensures BitsOf(g(d)) == F.Keccak256(BitsOf(d))
  {
    hide BitsOf, F.Keccak256;
  }

  // None of the three lengths is one of those: a checker with the standard's hash
  // builds the same tree and gives the same verdicts.
  function BuilderHash(): (h: Hasher)
    ensures forall g: Hasher | IsKeccak256(g) :: Alike(h, g)
  {
    hide IsKeccak256, Alike;
    var h: Hasher := (d: Bytes) => BuilderDigest(d);
    assert forall g: Hasher | IsKeccak256(g) :: Alike(h, g) by {
      forall g: Hasher | IsKeccak256(g) ensures Alike(h, g) {
        AlikeOffResidue(h, g);
      }
    }
    h
  }
}
