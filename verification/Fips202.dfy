// Keccak as FIPS 202 states it, bit by bit.
module Fips202 {
  type BitString = seq<bool>
  type State = s: BitString | |s| == WIDTH witness Zeros(WIDTH)

  const WIDTH: nat := 1600
  const RATE: nat := 1088
  const DIGEST: nat := 256
  // 12 + 2l rounds for lanes of 2^l bits
  const ROUNDS: nat := 24

  // ---- section 3.1: the state array, A[x, y, z] being bit 64(5y + x) + z ----

  function At(A: BitString, x: int, y: int, z: int): bool
    requires |A| == WIDTH
  {
    A[64 * (5 * (y % 5) + x % 5) + z % 64]
  }

  function Build(f: (int, int, int) -> bool): (A: BitString)
    ensures |A| == WIDTH
  {
    seq(WIDTH, (i: nat) => f(i / 64 % 5, i / 320, i % 64))
  }

  // ---- section 3.2: the step mappings ----

  function Column(A: BitString, x: int, z: int): bool
    requires |A| == WIDTH
  {
    ((((At(A, x, 0, z) != At(A, x, 1, z)) != At(A, x, 2, z)) != At(A, x, 3, z)) != At(A, x, 4, z))
  }

  function Theta(A: BitString): (r: BitString)
    requires |A| == WIDTH
    ensures |r| == WIDTH
  {
    Build((x, y, z) => At(A, x, y, z) != (Column(A, x - 1, z) != Column(A, x + 1, z - 1)))
  }

  // The lane visited at step t of the walk that starts at (1, 0).
  function Walk(t: nat): (int, int) {
    if t == 0 then (1, 0)
    else
      var (x, y) := Walk(t - 1);
      (y, (2 * x + 3 * y) % 5)
  }

  // The first step from t on that visits lane (x, y); 24 if there is none.
  function StepOf(x: int, y: int, t: nat): nat
    decreases 24 - t
  {
    if t >= 24 || Walk(t) == (x, y) then t else StepOf(x, y, t + 1)
  }

  function OffsetOf(x: int, y: int): int {
    if (x, y) == (0, 0) then 0
    else
      var t := StepOf(x, y, 0);
      (t + 1) * (t + 2) / 2
  }

  function Rho(A: BitString): (r: BitString)
    requires |A| == WIDTH
    ensures |r| == WIDTH
  {
    Build((x, y, z) => At(A, x, y, z - OffsetOf(x, y)))
  }

  function Pi(A: BitString): (r: BitString)
    requires |A| == WIDTH
    ensures |r| == WIDTH
  {
    Build((x, y, z) => At(A, x + 3 * y, x, z))
  }

  function Chi(A: BitString): (r: BitString)
    requires |A| == WIDTH
    ensures |r| == WIDTH
  {
    Build((x, y, z) => At(A, x, y, z) != (!At(A, x + 1, y, z) && At(A, x + 2, y, z)))
  }

  // The 8-bit register R of the round constants.
  datatype Register = Register(r0: bool, r1: bool, r2: bool, r3: bool, r4: bool, r5: bool, r6: bool, r7: bool)

  function Clock(r: Register): Register {
    Register(r.r7, r.r0, r.r1, r.r2, r.r3 != r.r7, r.r4 != r.r7, r.r5 != r.r7, r.r6)
  }

  function RegisterAt(t: nat): Register {
    if t == 0 then Register(true, false, false, false, false, false, false, false) else Clock(RegisterAt(t - 1))
  }

  function Rc(t: nat): bool {
    RegisterAt(t % 255).r0
  }

  function RoundBit(round: nat, z: int): bool {
    match z
    case 0 => Rc(7 * round)
    case 1 => Rc(1 + 7 * round)
    case 3 => Rc(2 + 7 * round)
    case 7 => Rc(3 + 7 * round)
    case 15 => Rc(4 + 7 * round)
    case 31 => Rc(5 + 7 * round)
    case 63 => Rc(6 + 7 * round)
    case _ => false
  }

  function Iota(A: BitString, round: nat): (r: BitString)
    requires |A| == WIDTH
    ensures |r| == WIDTH
  {
    Build((x, y, z) => At(A, x, y, z) != ((x, y) == (0, 0) && RoundBit(round, z)))
  }

  function Round(A: BitString, round: nat): (r: BitString)
    requires |A| == WIDTH
    ensures |r| == WIDTH
  {
    Iota(Chi(Pi(Rho(Theta(A)))), round)
  }

  function Rounds(A: BitString, n: nat): (r: BitString)
    requires |A| == WIDTH
    ensures |r| == WIDTH
  {
    if n == 0 then A else Round(Rounds(A, n - 1), n - 1)
  }

  // ---- section 3.3: the permutation ----

  function KeccakP(A: State): State {
    Rounds(A, ROUNDS)
  }

  // ---- section 4: the sponge ----

  function Zeros(n: nat): (r: BitString)
    ensures |r| == n
  {
    seq(n, i => false)
  }

  function Xor(a: BitString, b: BitString): (r: BitString)
    requires |a| == |b|
    ensures |r| == |a|
  {
    seq(|a|, i requires 0 <= i < |a| => a[i] != b[i])
  }

  function Absorb(f: State -> State, S: State, P: BitString): State
    decreases |P|
  {
    if |P| < RATE then S
    else Absorb(f, f(Xor(S, P[..RATE] + Zeros(WIDTH - RATE))), P[RATE..])
  }

  // Squeezes d bits, given those squeezed so far.
  function Squeeze(f: State -> State, S: State, Z: BitString, d: nat): (r: BitString)
    ensures |r| == d
    decreases d - |Z|
  {
    var longer := Z + S[..RATE];
    if d <= |longer| then longer[..d] else Squeeze(f, f(S), longer, d)
  }

  // The sponge of a permutation on a padded string, whose length the padding
  // makes a multiple of the rate.
  function Sponge(f: State -> State, P: BitString, d: nat): (r: BitString)
    ensures |r| == d
  {
    Squeeze(f, Absorb(f, Zeros(WIDTH), P), [], d)
  }

  // ---- section 5.1: padding ----

  // pad10*1(x, m) for the rate x of Keccak-256.
  function Pad10Star1(m: int): (r: BitString)
    ensures (m + |r|) % RATE == 0
  {
    [true] + Zeros((-m - 2) % RATE) + [true]
  }

  // Keccak with capacity 512: no suffix bits between the message and its padding.
  function Keccak256(N: BitString): (r: BitString)
    ensures |r| == DIGEST
  {
    Sponge(KeccakP, N + Pad10Star1(|N|), DIGEST)
  }
}
