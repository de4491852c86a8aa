// The on-chain proof checker, written independently of the builder.
module JobAuthorizer {
  import opened Words
  import T = MerkleTree

  type Digest = T.Digest
  type Hasher = T.Hasher

  // A job as the contract receives it; its types bound the values.
  datatype ChainJob = ChainJob(specHash: Digest, verifier: nat, reward: nat, deadline: nat)

  predicate Typed(job: ChainJob) {
    && job.verifier < T.Pow2(T.ADDRESS_BITS)
    && job.reward < T.Pow2(T.REWARD_BITS)
    && job.deadline < T.Pow2(T.DEADLINE_BITS)
  }

  // abi.encode: every value is a big-endian 32-byte word.
  function AbiEncode(h: Hasher, job: ChainJob): (b: Bytes)
    ensures |b| == 160
  {
    h(T.Domain()) + job.specHash + ToBytes(job.verifier, 32) + ToBytes(job.reward, 32) + ToBytes(job.deadline, 32)
  }

  function LeafFor(h: Hasher, job: ChainJob): Digest {
    h(AbiEncode(h, job))
  }

  // bytes32 values are compared as numbers.
  function OrderedPair(computed: Digest, sibling: Digest): (b: Bytes)
    ensures |b| == 64
  {
    if BigEndian(computed) < BigEndian(sibling) then computed + sibling else sibling + computed
  }

  function Fold(h: Hasher, leaf: Digest, siblings: seq<Digest>): Digest {
    if siblings == [] then leaf
    else
      var last := |siblings| - 1;
      h(OrderedPair(Fold(h, leaf, siblings[..last]), siblings[last]))
  }

  predicate Accepts(h: Hasher, root: Digest, job: ChainJob, siblings: seq<Digest>) {
    Fold(h, LeafFor(h, job), siblings) == root
  }

  method AuthorizeJob(h: Hasher, root: Digest, job: ChainJob, siblings: seq<Digest>)
    returns (valid: bool, authorizationId: Digest)
    ensures authorizationId == LeafFor(h, job)
    ensures valid == Accepts(h, root, job, siblings)
  {
    hide OrderedPair, AbiEncode;
    authorizationId := LeafFor(h, job);
    var computed := authorizationId;
    for i := 0 to |siblings|
      invariant computed == Fold(h, authorizationId, siblings[..i])
    {
      var sibling := siblings[i];
      computed := h(OrderedPair(computed, sibling));
      assert siblings[..i + 1][..i] == siblings[..i];
    }
    assert siblings[..|siblings|] == siblings;
    valid := computed == root;
  }
}
