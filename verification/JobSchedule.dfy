// Builder and checker together: scheduled jobs are accepted, and accepted jobs
// are scheduled unless the proof exhibits two strings with one digest.
module JobSchedule {
  import opened Words
  import opened MerkleTree
  import opened JobAuthorizer

  // ---- both sides encode a job alike ----

  // The fields have the fixed widths of the contract's types.
  predicate Encodable(job: Job) {
    && |job.specHash| == 32 && |job.verifier| == 20
    && 0 <= job.reward < Pow2(REWARD_BITS) && 0 <= job.deadline < Pow2(DEADLINE_BITS)
  }

  lemma EncodableWhen(h: Hasher, job: Job)
    ensures Encoding(h, job).Ok? <==> Encodable(job)
    ensures REWARD_BITS == 128 && DEADLINE_BITS == 64
  {
    hide ToBytes, Pow2;
  }

  // Why a job is refused: the first field that does not fit.
  lemma RefusedWhen(h: Hasher, job: Job)
    ensures match Encoding(h, job)
            case Ok(_) => true
            case Err(NotBytes32(n)) => n == |job.specHash| != 32
            case Err(NotAddress(n)) => |job.specHash| == 32 && n == |job.verifier| != 20
            case Err(UintOverflow(bits)) =>
              && |job.specHash| == 32 && |job.verifier| == 20
              && (bits == 128 ==> !(0 <= job.reward < Pow2(REWARD_BITS)))
              && (bits != 128 ==> bits == 64 && 0 <= job.reward < Pow2(REWARD_BITS)
                                  && !(0 <= job.deadline < Pow2(DEADLINE_BITS)))
            case Err(_) => false
  {
    hide ToBytes, Pow2;
  }

  // The domain is the ASCII text that both sides hash.
  lemma DomainText()
    ensures var text := "EOH_JOB_AUTH_V1";
            |Domain()| == |text| && forall i | 0 <= i < |text| :: Domain()[i] as int == text[i] as int
  {
  }

  function OnChain(job: Job): ChainJob
    requires Encodable(job)
  {
    ChainJob(job.specHash, BigEndian(job.verifier), job.reward, job.deadline)
  }

  lemma {:induction false} PowersAgree(n: nat)
    ensures Pow256(n) == Pow2(8 * n)
  {
    if n > 0 {
      PowersAgree(n - 1);
      Pow2Eight(8 * (n - 1));
    }
  }

  lemma Pow2Eight(m: nat)
    ensures Pow2(m + 8) == 256 * Pow2(m)
  {
    assert Pow2(m + 4) == 16 * Pow2(m) by { assert Pow2(m + 2) == 4 * Pow2(m); }
    assert Pow2(m + 8) == 16 * Pow2(m + 4) by { assert Pow2(m + 6) == 4 * Pow2(m + 4); }
  }

  lemma {:induction false} Pow2Grows(m: nat, n: nat)
    requires m <= n
    ensures Pow2(m) <= Pow2(n)
  {
    if m < n {
      Pow2Grows(m, n - 1);
    }
  }

  lemma EncodingsAgree(h: Hasher, job: Job)
    requires Encodable(job)
    ensures Typed(OnChain(job))
    ensures Encoding(h, job) == Ok(AbiEncode(h, OnChain(job)))
    ensures JobLeaf(h, job) == Ok(LeafFor(h, OnChain(job)))
  {
    hide ToBytes, BigEndian, Pow2, Pow256;
    BigEndianBytes(job.verifier, 32);
    BigEndianBound(job.verifier);
    PowersAgree(20);
  }

  lemma WordInjective(x: nat, y: nat, bits: nat)
    requires bits <= 256 && x < Pow2(bits) && y < Pow2(bits) && ToBytes(x, 32) == ToBytes(y, 32)
    ensures x == y
  {
    hide ToBytes, Pow2, Pow256;
    PowersAgree(32);
    Pow2Grows(bits, 256);
    ToBytesValue(x, 32);
    ToBytesValue(y, 32);
  }

  // The five words of an encoding can be read back.
  lemma EncodingInjective(h: Hasher, a: ChainJob, b: ChainJob)
    requires Typed(a) && Typed(b) && AbiEncode(h, a) == AbiEncode(h, b)
    ensures a == b
  {
    hide ToBytes, Pow2;
    WordsOf(h, a);
    WordsOf(h, b);
    WordInjective(a.verifier, b.verifier, ADDRESS_BITS);
    WordInjective(a.reward, b.reward, REWARD_BITS);
    WordInjective(a.deadline, b.deadline, DEADLINE_BITS);
  }

  lemma WordsOf(h: Hasher, job: ChainJob)
    ensures AbiEncode(h, job)[..32] == h(Domain())
    ensures AbiEncode(h, job)[32..64] == job.specHash
    ensures AbiEncode(h, job)[64..96] == ToBytes(job.verifier, 32)
    ensures AbiEncode(h, job)[96..128] == ToBytes(job.reward, 32)
    ensures AbiEncode(h, job)[128..160] == ToBytes(job.deadline, 32)
  {
    hide ToBytes;
  }

  // ---- both sides order a pair alike ----

  lemma PairsAgree(left: Digest, right: Digest)
    ensures OrderedPair(left, right) == PairString(left, right) == PairString(right, left)
  {
    hide BigEndian, LexLess;
    LexIsNumeric(left, right);
    LexIsNumeric(right, left);
    if BigEndian(left) == BigEndian(right) {
      ValueInjective(left, right);
    }
  }

  // A parent is the digest of its children, the smaller one first, and the last
  // child of an odd layer is its own sibling.
  lemma ParentsExact(h: Hasher, layer: seq<Digest>, i: nat)
    requires 2 * i < |layer|
    ensures var left: Bytes := layer[2 * i];
            var right: Bytes := if 2 * i + 1 == |layer| then left else layer[2 * i + 1];
            var text := if BigEndian(left) < BigEndian(right) then left + right else right + left;
            && |NextLayer(h, layer)| == (|layer| + 1) / 2
            && NextLayer(h, layer)[i] == h(text)
  {
    hide BigEndian, LexLess;
    var left := layer[2 * i];
    LexIsNumeric(left, RightOf(layer, i));
  }

  // ---- completeness ----

  lemma {:induction false} FoldFirst(h: Hasher, leaf: Digest, siblings: seq<Digest>)
    requires siblings != []
    ensures Fold(h, leaf, siblings) == Fold(h, h(OrderedPair(leaf, siblings[0])), siblings[1..])
  {
    hide OrderedPair;
    var last := |siblings| - 1;
    if last > 0 {
      FoldFirst(h, leaf, siblings[..last]);
      assert siblings[..last][1..] == siblings[1..][..last - 1];
    } else {
      assert siblings[..0] == [] && siblings[1..] == [];
    }
  }

  // A node and the sibling its proof names hash to the node above.
  lemma ParentOf(h: Hasher, layer: seq<Digest>, index: nat)
    requires index < |layer|
    ensures SiblingIn(layer, index).Ok?
    ensures index / 2 < |NextLayer(h, layer)|
    ensures h(OrderedPair(layer[index], SiblingIn(layer, index).value)) == NextLayer(h, layer)[index / 2]
  {
    hide OrderedPair, PairString;
    PairsAgree(layer[index], SiblingIn(layer, index).value);
  }

  lemma {:induction false} ProofReachesRoot(h: Hasher, leaves: seq<Digest>, k: nat, index: nat)
    requires leaves != [] && k <= Height(|leaves|) && index < |LayerAt(h, leaves, k)|
    ensures var r := ProofFrom(Layers(h, leaves), k, index);
            && r.Ok? && |r.value| == Height(|leaves|) - k
            && Fold(h, LayerAt(h, leaves, k)[index], r.value) == Root(h, leaves)
    decreases Height(|leaves|) - k
  {
    hide OrderedPair, PairString, Height, NextLayer, SiblingIn, LayerAt;
    LayerSizes(h, leaves, k);
    if k < Height(|leaves|) {
      LayerAbove(h, leaves, k);
      ParentOf(h, LayerAt(h, leaves, k), index);
      ProofReachesRoot(h, leaves, k + 1, index / 2);
      var r := ProofFrom(Layers(h, leaves), k, index);
      FoldFirst(h, LayerAt(h, leaves, k)[index], r.value);
    }
  }

  // The height is the logarithm of the number of leaves, rounded up.
  lemma {:induction false} HeightIsLog(n: nat)
    requires n > 0
    ensures Pow2(Height(n)) >= n && (Height(n) > 0 ==> Pow2(Height(n) - 1) < n)
  {
    if n > 1 {
      HeightIsLog((n + 1) / 2);
    }
  }

  // ---- soundness ----

  function CheckedString(h: Hasher, leaf: Digest, siblings: seq<Digest>, j: nat): Bytes
    requires j < |siblings|
  {
    OrderedPair(Fold(h, leaf, siblings[..j]), siblings[j])
  }

  // The strings the checker hashes for a proof, and those the builder hashed for the tree.
  ghost predicate CheckerHashes(h: Hasher, encoded: Bytes, siblings: seq<Digest>, a: Bytes) {
    a == encoded || exists j: nat :: j < |siblings| && a == CheckedString(h, h(encoded), siblings, j)
  }

  function LeavesOf(h: Hasher, encodings: seq<Bytes>): (leaves: seq<Digest>)
    ensures |leaves| == |encodings|
  {
    seq(|encodings|, i requires 0 <= i < |encodings| => h(encodings[i]))
  }

  predicate BuiltAt(h: Hasher, leaves: seq<Digest>, k: nat, i: nat, b: Bytes) {
    2 * i < |LayerAt(h, leaves, k)| && b == PairAt(LayerAt(h, leaves, k), i)
  }

  ghost predicate BuilderHashes(h: Hasher, encodings: seq<Bytes>, b: Bytes) {
    b in encodings || exists k: nat, i: nat :: k < Height(|encodings|) && BuiltAt(h, LeavesOf(h, encodings), k, i, b)
  }

  ghost predicate Collides(
    h: Hasher, encodings: seq<Bytes>, encoded: Bytes, siblings: seq<Digest>, a: Bytes, b: Bytes)
  {
    && CheckerHashes(h, encoded, siblings, a)
    && BuilderHashes(h, encodings, b)
    && a != b
    && h(a) == h(b)
  }

  ghost predicate Collision(h: Hasher, encodings: seq<Bytes>, encoded: Bytes, siblings: seq<Digest>) {
    exists a, b :: Collides(h, encodings, encoded, siblings, a, b)
  }

  lemma CheckedPrefix(h: Hasher, encodings: seq<Bytes>, encoded: Bytes, siblings: seq<Digest>, n: nat)
    requires n <= |siblings| && Collision(h, encodings, encoded, siblings[..n])
    ensures Collision(h, encodings, encoded, siblings)
  {
    hide BuilderHashes, CheckedString;
    var a, b :| Collides(h, encodings, encoded, siblings[..n], a, b);
    if a != encoded {
      var j: nat :| j < n && a == CheckedString(h, h(encoded), siblings[..n], j);
      SameChecked(h, h(encoded), siblings, n, j);
      assert CheckerHashes(h, encoded, siblings, a);
    }
    assert Collides(h, encodings, encoded, siblings, a, b);
  }

  lemma SameChecked(h: Hasher, leaf: Digest, siblings: seq<Digest>, n: nat, j: nat)
    requires j < n <= |siblings|
    ensures CheckedString(h, leaf, siblings[..n], j) == CheckedString(h, leaf, siblings, j)
  {
    hide Fold, OrderedPair;
    assert siblings[..n][..j] == siblings[..j];
  }

  // Two equal ordered pairs hold the same digests.
  lemma PairMembers(c: Digest, s: Digest, left: Digest, right: Digest)
    requires OrderedPair(c, s) == PairString(left, right)
    ensures c == left || c == right
  {
    hide BigEndian, LexLess;
    var p := OrderedPair(c, s);
    assert c == p[..32] || c == p[32..];
    assert (left == p[..32] && right == p[32..]) || (left == p[32..] && right == p[..32]);
  }

  ghost predicate Scheduled(h: Hasher, encodings: seq<Bytes>, encoded: Bytes, siblings: seq<Digest>) {
    encoded in encodings || Collision(h, encodings, encoded, siblings)
  }

  // A proof that folds to a leaf is empty, or collides with that leaf.
  lemma FoldsToLeaf(h: Hasher, encodings: seq<Bytes>, encoded: Bytes, siblings: seq<Digest>, i: nat)
    requires i < |encodings| && |encoded| == |encodings[i]| == 160
    requires Fold(h, h(encoded), siblings) == h(encodings[i])
    ensures Scheduled(h, encodings, encoded, siblings)
  {
    hide OrderedPair;
    if siblings == [] {
      if encoded != encodings[i] {
        assert Collides(h, encodings, encoded, siblings, encoded, encodings[i]);
      }
    } else {
      var j := |siblings| - 1;
      assert CheckerHashes(h, encoded, siblings, CheckedString(h, h(encoded), siblings, j));
      assert Collides(h, encodings, encoded, siblings, CheckedString(h, h(encoded), siblings, j), encodings[i]);
    }
  }

  // A proof that folds to an inner node folds to one of its children before the last step, or collides.
  lemma FoldsToInner(h: Hasher, encodings: seq<Bytes>, encoded: Bytes, siblings: seq<Digest>, k: nat, i: nat)
    requires encodings != [] && |encoded| == 160 && k < Height(|encodings|)
    requires 2 * i < |LayerAt(h, LeavesOf(h, encodings), k)|
    requires Fold(h, h(encoded), siblings) == h(PairAt(LayerAt(h, LeavesOf(h, encodings), k), i))
    ensures Collision(h, encodings, encoded, siblings)
         || (siblings != [] &&
             var below := LayerAt(h, LeavesOf(h, encodings), k);
             var c := Fold(h, h(encoded), siblings[..|siblings| - 1]);
             c == below[2 * i] || c == RightOf(below, i))
  {
    hide OrderedPair, PairString, Fold, LayerAt, Height, LeavesOf;
    var below := LayerAt(h, LeavesOf(h, encodings), k);
    var built := PairAt(below, i);
    assert BuiltAt(h, LeavesOf(h, encodings), k, i, built);
    assert BuilderHashes(h, encodings, built);
    if siblings == [] {
      NoSiblings(h, h(encoded));
      assert Collides(h, encodings, encoded, siblings, encoded, built);
    } else {
      var j := |siblings| - 1;
      var checked := CheckedString(h, h(encoded), siblings, j);
      LastSibling(h, h(encoded), siblings);
      assert CheckerHashes(h, encoded, siblings, checked);
      if checked == built {
        PairMembers(Fold(h, h(encoded), siblings[..j]), siblings[j], below[2 * i], RightOf(below, i));
      } else {
        assert Collides(h, encodings, encoded, siblings, checked, built);
      }
    }
  }

  lemma NoSiblings(h: Hasher, leaf: Digest)
    ensures Fold(h, leaf, []) == leaf
  {
  }

  lemma LastSibling(h: Hasher, leaf: Digest, siblings: seq<Digest>)
    requires siblings != []
    ensures Fold(h, leaf, siblings) == h(CheckedString(h, leaf, siblings, |siblings| - 1))
  {
  }

  lemma LeafAt(h: Hasher, encodings: seq<Bytes>, i: nat)
    requires i < |encodings|
    ensures LeavesOf(h, encodings)[i] == h(encodings[i])
  {
  }

  lemma NodeAbove(h: Hasher, leaves: seq<Digest>, k: nat, i: nat)
    requires i < |LayerAt(h, leaves, k + 1)|
    ensures 2 * i < |LayerAt(h, leaves, k)| && LayerAt(h, leaves, k + 1)[i] == h(PairAt(LayerAt(h, leaves, k), i))
  {
    hide PairAt;
  }

  // From any node of the tree downwards.
  lemma {:induction false} FoldsToNode(
    h: Hasher, encodings: seq<Bytes>, encoded: Bytes, siblings: seq<Digest>, k: nat, i: nat)
    requires encodings != [] && |encoded| == 160 && (forall e | e in encodings :: |e| == 160)
    requires k <= Height(|encodings|) && i < |LayerAt(h, LeavesOf(h, encodings), k)|
    requires Fold(h, h(encoded), siblings) == LayerAt(h, LeavesOf(h, encodings), k)[i]
    ensures Scheduled(h, encodings, encoded, siblings)
    decreases k
  {
    hide OrderedPair, PairString, PairAt, Fold, Height, Collision, LayerAt, LeavesOf;
    if k == 0 {
      FirstLayer(h, LeavesOf(h, encodings));
      LeafAt(h, encodings, i);
      assert encodings[i] in encodings;
      FoldsToLeaf(h, encodings, encoded, siblings, i);
    } else {
      NodeAbove(h, LeavesOf(h, encodings), k - 1, i);
      FoldsToInner(h, encodings, encoded, siblings, k - 1, i);
      if !Collision(h, encodings, encoded, siblings) {
        var below, shorter := LayerAt(h, LeavesOf(h, encodings), k - 1), siblings[..|siblings| - 1];
        var child := if Fold(h, h(encoded), shorter) == below[2 * i] then 2 * i else 2 * i + 1;
        FoldsToNode(h, encodings, encoded, shorter, k - 1, child);
        if Collision(h, encodings, encoded, shorter) {
          CheckedPrefix(h, encodings, encoded, siblings, |siblings| - 1);
        }
      }
    }
  }

  // ---- the schedule ----

  ghost predicate AllEncodable(jobs: seq<Job>) {
    forall j | j in jobs :: Encodable(j)
  }

  function Encodings(h: Hasher, jobs: seq<Job>): (r: seq<Bytes>)
    requires AllEncodable(jobs)
    ensures |r| == |jobs|
  {
    seq(|jobs|, i requires 0 <= i < |jobs| => AbiEncode(h, OnChain(jobs[i])))
  }

  function RootOf(h: Hasher, jobs: seq<Job>): Digest
    requires AllEncodable(jobs) && jobs != []
  {
    Root(h, LeavesOf(h, Encodings(h, jobs)))
  }

  // What the builder computes leaf by leaf is the tree over these encodings.
  lemma LeavesAreEncodings(h: Hasher, jobs: seq<Job>, i: nat)
    requires AllEncodable(jobs) && i < |jobs|
    ensures JobLeaf(h, jobs[i]) == Ok(LeavesOf(h, Encodings(h, jobs))[i])
  {
    hide AbiEncode, OnChain, JobLeaf, Encodable;
    assert jobs[i] in jobs;
    EncodingsAgree(h, jobs[i]);
  }

  // Completeness: every scheduled job is accepted with the proof the builder
  // gives it, which is as long as the tree is high.
  lemma ScheduledIsAccepted(h: Hasher, jobs: seq<Job>, i: nat)
    requires AllEncodable(jobs) && i < |jobs|
    ensures var r := ProofFrom(Layers(h, LeavesOf(h, Encodings(h, jobs))), 0, i);
            && r.Ok?
            && |r.value| == Height(|jobs|)
            && Accepts(h, RootOf(h, jobs), OnChain(jobs[i]), r.value)
  {
    hide Fold, Layers, ProofFrom, Height, Root, AbiEncode, OnChain, Encodable;
    FirstLayer(h, LeavesOf(h, Encodings(h, jobs)));
    ProofReachesRoot(h, LeavesOf(h, Encodings(h, jobs)), 0, i);
  }

  // Soundness: whatever siblings come with it, an accepted job is a scheduled
  // one, or the proof and the tree exhibit two strings with the same digest.
  lemma AcceptedIsScheduled(h: Hasher, jobs: seq<Job>, job: ChainJob, siblings: seq<Digest>)
    requires AllEncodable(jobs) && jobs != [] && Typed(job)
    requires Accepts(h, RootOf(h, jobs), job, siblings)
    ensures (exists i :: 0 <= i < |jobs| && job == OnChain(jobs[i]))
         || Collision(h, Encodings(h, jobs), AbiEncode(h, job), siblings)
  {
    hide Fold, Height, AbiEncode, Collision, Typed, Encodable, OnChain, LayerAt, LeavesOf;
    var encodings := Encodings(h, jobs);
    LayerSizes(h, LeavesOf(h, encodings), Height(|encodings|));
    FoldsToNode(h, encodings, AbiEncode(h, job), siblings, Height(|encodings|), 0);
    if !Collision(h, encodings, AbiEncode(h, job), siblings) {
      var i :| 0 <= i < |encodings| && encodings[i] == AbiEncode(h, job);
      assert jobs[i] in jobs;
      EncodingsAgree(h, jobs[i]);
      EncodingInjective(h, job, OnChain(jobs[i]));
    }
  }
}
