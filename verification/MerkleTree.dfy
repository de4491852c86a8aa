// The job-tree builder: leaves, layers and proofs.
module MerkleTree {
  import opened Words

  type Digest = d: Bytes | |d| == 32 witness seq(32, i => 0)

  // The hash is a parameter; KeccakPadding.Digest is the one the source uses.
  type Hasher = Bytes -> Digest

  const ADDRESS_BITS: nat := 160
  const REWARD_BITS: nat := 128
  const DEADLINE_BITS: nat := 64

  datatype BuildError = NotBytes32(length: nat) | NotAddress(length: nat) | UintOverflow(bits: nat)
                      | NoJobs | IndexOutOfRange

  datatype Result<+T> = Ok(value: T) | Err(error: BuildError)

  // A job as the input file gives it, hexadecimal already decoded.
  datatype Job = Job(specHash: Bytes, verifier: Bytes, reward: int, deadline: int)

  // The ASCII bytes of "EOH_JOB_AUTH_V1".
  function Domain(): (b: Bytes)
    ensures |b| == 15
  {
    [0x45, 0x4F, 0x48, 0x5F, 0x4A, 0x4F, 0x42, 0x5F, 0x41, 0x55, 0x54, 0x48, 0x5F, 0x56, 0x31]
  }

  function Pow2(n: nat): (p: nat)
    ensures p > 0
  {
    if n == 0 then 1 else 2 * Pow2(n - 1)
  }

  // ---- fixed-width words ----

  function Bytes32(raw: Bytes): Result<Bytes> {
    if |raw| != 32 then Err(NotBytes32(|raw|)) else Ok(raw)
  }

  function AddressWord(raw: Bytes): Result<Bytes> {
    if |raw| != 20 then Err(NotAddress(|raw|)) else Ok(seq(12, i => 0) + raw)
  }

  function UintWord(value: int, bits: nat): Result<Bytes> {
    if value < 0 || value >= Pow2(bits) then Err(UintOverflow(bits)) else Ok(ToBytes(value, 32))
  }

  // The 160 bytes a leaf is the digest of.
  function Encoding(h: Hasher, job: Job): Result<Bytes> {
    var domain, spec, verifier := h(Domain()), Bytes32(job.specHash), AddressWord(job.verifier);
    var reward, deadline := UintWord(job.reward, REWARD_BITS), UintWord(job.deadline, DEADLINE_BITS);
    if spec.Err? then Err(spec.error)
    else if verifier.Err? then Err(verifier.error)
    else if reward.Err? then Err(reward.error)
    else if deadline.Err? then Err(deadline.error)
    else Ok(domain + spec.value + verifier.value + reward.value + deadline.value)
  }

  function JobLeaf(h: Hasher, job: Job): Result<Digest> {
    var encoding := Encoding(h, job);
    if encoding.Err? then Err(encoding.error) else Ok(h(encoding.value))
  }

  // ---- layers ----

  function PairString(left: Digest, right: Digest): (b: Bytes)
    ensures |b| == 64
  {
    if LexLess(left, right) then left + right else right + left
  }

  function PairHash(h: Hasher, left: Digest, right: Digest): Digest {
    h(PairString(left, right))
  }

  // The last node of an odd layer is paired with itself.
  function RightOf(layer: seq<Digest>, i: nat): Digest
    requires 2 * i < |layer|
  {
    if 2 * i + 1 < |layer| then layer[2 * i + 1] else layer[2 * i]
  }

  function PairAt(layer: seq<Digest>, i: nat): (b: Bytes)
    requires 2 * i < |layer|
    ensures |b| == 64
  {
    PairString(layer[2 * i], RightOf(layer, i))
  }

  function ParentAt(h: Hasher, layer: seq<Digest>, i: nat): Digest
    requires 2 * i < |layer|
  {
    h(PairAt(layer, i))
  }

  function NextLayer(h: Hasher, layer: seq<Digest>): (next: seq<Digest>)
    ensures |next| == (|layer| + 1) / 2
  {
    seq((|layer| + 1) / 2, i requires 0 <= i < (|layer| + 1) / 2 => ParentAt(h, layer, i))
  }

  function LayerAt(h: Hasher, leaves: seq<Digest>, k: nat): seq<Digest> {
    if k == 0 then leaves else NextLayer(h, LayerAt(h, leaves, k - 1))
  }

  // How many layers lie above the leaves.
  function Height(n: nat): nat {
    if n <= 1 then 0 else 1 + Height((n + 1) / 2)
  }

  function Layers(h: Hasher, leaves: seq<Digest>): seq<seq<Digest>> {
    seq(Height(|leaves|) + 1, k requires 0 <= k => LayerAt(h, leaves, k))
  }

  lemma {:induction false} LayerSizes(h: Hasher, leaves: seq<Digest>, k: nat)
    requires leaves != [] && k <= Height(|leaves|)
    ensures LayerAt(h, leaves, k) != []
    ensures Height(|LayerAt(h, leaves, k)|) == Height(|leaves|) - k
    ensures |LayerAt(h, leaves, k)| == 1 <==> k == Height(|leaves|)
  {
    if k > 0 {
      LayerSizes(h, leaves, k - 1);
    }
  }

  function Root(h: Hasher, leaves: seq<Digest>): Digest
    requires leaves != []
  {
    LayerSizes(h, leaves, Height(|leaves|));
    LayerAt(h, leaves, Height(|leaves|))[0]
  }

  method BuildTree(h: Hasher, leaves: seq<Digest>) returns (r: Result<seq<seq<Digest>>>)
    ensures r == if leaves == [] then Err(NoJobs) else Ok(Layers(h, leaves))
  {
    hide Height, LayerAt, PairString;
    if leaves == [] { return Err(NoJobs); }
    var layers := [leaves];
    ghost var k := 0;
    FirstLayer(h, leaves);
    while |layers[|layers| - 1]| > 1
      invariant |layers| == k + 1 && k <= Height(|leaves|)
      invariant forall j | 0 <= j <= k :: layers[j] == LayerAt(h, leaves, j)
      decreases Height(|leaves|) - k
    {
      LayerSizes(h, leaves, k);
      var current := layers[|layers| - 1];
      var next := PairUp(h, current);
      LayerAbove(h, leaves, k);
      layers := layers + [next];
      k := k + 1;
    }
    LayerSizes(h, leaves, k);
    assert layers == Layers(h, leaves);
    return Ok(layers);
  }

  lemma FirstLayer(h: Hasher, leaves: seq<Digest>)
    ensures LayerAt(h, leaves, 0) == leaves
  {
  }

  lemma LayerAbove(h: Hasher, leaves: seq<Digest>, k: nat)
    ensures LayerAt(h, leaves, k + 1) == NextLayer(h, LayerAt(h, leaves, k))
  {
  }

  // The inner loop of the builder.
  method PairUp(h: Hasher, current: seq<Digest>) returns (next: seq<Digest>)
    ensures next == NextLayer(h, current)
  {
    hide PairString;
    next := [];
    var index := 0;
    while index < |current|
      invariant 0 <= index <= |current| + 1 && index == 2 * |next|
      invariant forall i | 0 <= i < |next| :: 2 * i < |current| && next[i] == h(PairAt(current, i))
    {
      var left := current[index];
      var right := if index + 1 < |current| then current[index + 1] else left;
      next := next + [PairHash(h, left, right)];
      index := index + 2;
    }
  }

  // ---- proofs ----

  // index ^ 1
  function Sibling(index: int): int {
    if index % 2 == 0 then index + 1 else index - 1
  }

  // A negative index counts from the end.
  function Element(layer: seq<Digest>, index: int): Result<Digest> {
    if 0 <= index < |layer| then Ok(layer[index])
    else if -|layer| <= index < 0 then Ok(layer[|layer| + index])
    else Err(IndexOutOfRange)
  }

  // An index within one length of zero names an element, and two indices that are
  // a length apart name the same.
  lemma ElementExactly(layer: seq<Digest>, index: int)
    ensures Element(layer, index).Ok? <==> -|layer| <= index < |layer|
    ensures 0 <= index < |layer| ==> Element(layer, index) == Element(layer, index - |layer|) == Ok(layer[index])
    ensures Element(layer, index).Err? ==> Element(layer, index).error == IndexOutOfRange
  {
  }

  function SiblingIn(layer: seq<Digest>, index: int): Result<Digest> {
    if Sibling(index) < |layer| then Element(layer, Sibling(index)) else Element(layer, index)
  }

  // The proof for a node of layer k, from there up to layer top.
  function ProofFrom(layers: seq<seq<Digest>>, k: nat, index: int): Result<seq<Digest>>
    decreases |layers| - k
  {
    if k + 1 >= |layers| then Ok([])
    else
      var first := SiblingIn(layers[k], index);
      if first.Err? then Err(first.error)
      else
        var rest := ProofFrom(layers, k + 1, index / 2);
        if rest.Err? then rest else Ok([first.value] + rest.value)
  }

  method ProofFor(layers: seq<seq<Digest>>, leafIndex: int) returns (r: Result<seq<Digest>>)
    ensures r == ProofFrom(layers, 0, leafIndex)
  {
    var proof: seq<Digest> := [];
    var index := leafIndex;
    var k := 0;
    ghost var whole := ProofFrom(layers, 0, leafIndex);
    assert whole.Ok? ==> proof + whole.value == whole.value;
    while k + 1 < |layers|
      invariant 0 <= k <= |layers|
      invariant var rest := ProofFrom(layers, k, index);
                ProofFrom(layers, 0, leafIndex) == if rest.Err? then rest else Ok(proof + rest.value)
    {
      var sibling := SiblingIn(layers[k], index);
      if sibling.Err? { return Err(sibling.error); }
      ghost var rest := ProofFrom(layers, k + 1, index / 2);
      assert rest.Ok? ==> proof + ([sibling.value] + rest.value) == (proof + [sibling.value]) + rest.value;
      proof := proof + [sibling.value];
      index := index / 2;
      k := k + 1;
    }
    assert proof + [] == proof;
    return Ok(proof);
  }
}
