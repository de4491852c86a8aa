// Keccak-256 over 64-bit lanes: the step functions, and the loops that compute
// them in place.
module Keccak {
  import opened Lanes

  const RATE_BYTES: nat := 136
  const ROTATION: seq<seq<Lane>> := [
    [0, 36, 3, 41, 18],
    [1, 44, 10, 45, 2],
    [62, 6, 43, 15, 61],
    [28, 55, 25, 21, 56],
    [27, 20, 39, 8, 14]
  ]
  const ROUND_CONSTANTS: seq<Lane> := [
    0x0000000000000001, 0x0000000000008082, 0x800000000000808A, 0x8000000080008000,
    0x000000000000808B, 0x0000000080000001, 0x8000000080008081, 0x8000000000008009,
    0x000000000000008A, 0x0000000000000088, 0x0000000080008009, 0x000000008000000A,
    0x000000008000808B, 0x800000000000008B, 0x8000000000008089, 0x8000000000008003,
    0x8000000000008002, 0x8000000000000080, 0x000000000000800A, 0x800000008000000A,
    0x8000000080008081, 0x8000000000008080, 0x0000000080000001, 0x8000000080008008
  ]

  // Lane (x, y) is element x + 5y.
  type State = s: seq<Lane> | |s| == 25 witness seq(25, i => 0)

  // The table lookup.
  function OffsetAt(x: nat, y: nat): (s: Lane)
    requires x < 5 && y < 5
    ensures s < 64
  {
    ROTATION[x][y]
  }

  function Xor5(a: Lane, b: Lane, c: Lane, d: Lane, e: Lane): Lane {
    Xor(Xor(Xor(Xor(a, b), c), d), e)
  }

  function Parity(s: State, x: nat): Lane
    requires x < 5
  {
    Xor5(s[x], s[x + 5], s[x + 10], s[x + 15], s[x + 20])
  }

  function Spread(s: State, x: nat): Lane
    requires x < 5
  {
    Xor(Parity(s, (x + 4) % 5), Rol(Parity(s, (x + 1) % 5), 1))
  }

  function Theta(s: State): State {
    seq(25, i requires 0 <= i < 25 => Xor(s[i], Spread(s, i % 5)))
  }

  // The column and row that rho and pi move to element i.
  function SourceX(i: nat): (x: nat)
    ensures x < 5
  {
    (i % 5 + 3 * (i / 5)) % 5
  }

  function SourceY(i: nat): (y: nat)
    ensures y < 5
  {
    i % 5
  }

  function RhoPiAt(s: State, i: nat): Lane
    requires i < 25
  {
    Rol(s[SourceX(i) + 5 * SourceY(i)], OffsetAt(SourceX(i), SourceY(i)))
  }

  function RhoPi(s: State): State {
    seq(25, i requires 0 <= i < 25 => RhoPiAt(s, i))
  }

  function ChiAt(b: State, x: nat, y: nat): Lane
    requires x < 5 && y < 5
  {
    Xor(b[x + 5 * y], AndNot(b[(x + 1) % 5 + 5 * y], b[(x + 2) % 5 + 5 * y]))
  }

  function Chi(b: State): State {
    seq(25, i requires 0 <= i < 25 => ChiAt(b, i % 5, i / 5))
  }

  function Iota(s: State, rc: Lane): State {
    s[0 := Xor(s[0], rc)]
  }

  function Round(s: State, rc: Lane): State {
    Iota(Chi(RhoPi(Theta(s))), rc)
  }

  function Rounds(s: State, n: nat): State
    requires n <= |ROUND_CONSTANTS|
  {
    if n == 0 then s else Round(Rounds(s, n - 1), ROUND_CONSTANTS[n - 1])
  }

  function KeccakF(s: State): State {
    Rounds(s, |ROUND_CONSTANTS|)
  }

  // ---- padding and the sponge, over bytes ----

  function Filler(n: nat): seq<Byte> {
    seq(n, i => 0)
  }

  function Pad(length: nat): (r: seq<Byte>)
    ensures (length + |r|) % RATE_BYTES == 0
  {
    [1] + Filler((RATE_BYTES - 2 - length) % RATE_BYTES) + [0x80]
  }

  function Padded(data: seq<Byte>): (r: seq<Byte>)
    ensures |r| % RATE_BYTES == 0
  {
    data + Pad(|data|)
  }

  function LaneAt(p: seq<Byte>, lane: nat): Lane
    requires 8 * lane + 8 <= |p|
  {
    LaneOf(p[8 * lane..8 * lane + 8])
  }

  function XorBlock(s: State, block: seq<Byte>): State
    requires |block| == RATE_BYTES
  {
    seq(25, i requires 0 <= i < 25 => if i < 17 then Xor(s[i], LaneAt(block, i)) else s[i])
  }

  // The sponge works with any permutation of the state.
  function Absorb(f: State -> State, s: State, p: seq<Byte>): State
    decreases |p|
  {
    if |p| < RATE_BYTES then s else Absorb(f, f(XorBlock(s, p[..RATE_BYTES])), p[RATE_BYTES..])
  }

  function Output(s: State, lanes: nat): (bytes: seq<Byte>)
    requires lanes <= 25
    ensures |bytes| == 8 * lanes
  {
    if lanes == 0 then [] else Output(s, lanes - 1) + BytesOf(s[lanes - 1])
  }

  function Squeeze(f: State -> State, s: State, output: seq<Byte>): (digest: seq<Byte>)
    ensures |digest| == 32
    decreases 32 - |output|
  {
    if |output| >= 32 then output[..32] else Squeeze(f, f(s), output + Output(s, 17))
  }

  function Blank(): State {
    seq(25, i => 0)
  }

  function HashWith(f: State -> State, data: seq<Byte>): (digest: seq<Byte>)
    ensures |digest| == 32
  {
    Squeeze(f, Absorb(f, Blank(), Padded(data)), [])
  }

  function Keccak256(data: seq<Byte>): (digest: seq<Byte>)
    ensures |digest| == 32
  {
    HashWith(KeccakF, data)
  }

  // ---- the permutation, in place ----

  method ThetaInPlace(state: array<Lane>)
    requires state.Length == 25
    modifies state
    ensures state[..] == Theta(old(state[..]))
  {
    hide Parity, Rol, Spread, Xor;
    ghost var before: State := state[..];
    var c := Parities(state);
    var d := Spreads(c, before);
    for x := 0 to 5
      invariant forall i | 0 <= i < 25 ::
        state[i] == if i % 5 < x then Xor(before[i], Spread(before, i % 5)) else before[i]
    {
      for y := 0 to 5
        invariant forall i | 0 <= i < 25 ::
          state[i] == if i % 5 < x || (i % 5 == x && i / 5 < y) then Xor(before[i], Spread(before, i % 5))
                      else before[i]
      {
        state[x + 5 * y] := Xor(state[x + 5 * y], d[x]);
      }
    }
  }

  method Parities(state: array<Lane>) returns (c: seq<Lane>)
    requires state.Length == 25
    ensures |c| == 5 && forall x | 0 <= x < 5 :: c[x] == Parity(state[..], x)
  {
    hide Xor5;
    ghost var s: State := state[..];
    c := [];
    for x := 0 to 5
      invariant |c| == x && forall k | 0 <= k < x :: c[k] == Parity(s, k)
    {
      c := c + [Xor5(state[x], state[x + 5], state[x + 10], state[x + 15], state[x + 20])];
    }
  }

  method Spreads(c: seq<Lane>, ghost s: State) returns (d: seq<Lane>)
    requires |c| == 5 && forall x | 0 <= x < 5 :: c[x] == Parity(s, x)
    ensures |d| == 5 && forall x | 0 <= x < 5 :: d[x] == Spread(s, x)
  {
    hide Parity, Rol, Xor;
    d := [];
    for x := 0 to 5
      invariant |d| == x && forall k | 0 <= k < x :: d[k] == Spread(s, k)
    {
      d := d + [Xor(c[(x + 4) % 5], Rol(c[(x + 1) % 5], 1))];
    }
  }

  lemma SourceOf(x: nat, y: nat)
    requires x < 5 && y < 5
    ensures var j := y + 5 * ((2 * x + 3 * y) % 5);
            j < 25 && SourceX(j) == x && SourceY(j) == y
  {
  }

  lemma UnwindRow(y: nat, q: nat)
    requires y < 5 && q < 5
    ensures (2 * ((y + 3 * q) % 5) + 3 * y) % 5 == q
  {
    var x, k := (y + 3 * q) % 5, (y + 3 * q) / 5;
    assert 2 * x + 3 * y == 5 * (y + q - 2 * k) + q;
  }

  lemma SourceInverse(i: nat)
    requires i < 25
    ensures i == SourceY(i) + 5 * ((2 * SourceX(i) + 3 * SourceY(i)) % 5)
  {
    UnwindRow(i % 5, i / 5);
  }

  lemma Scattered(s: State, x: nat, y: nat)
    requires x < 5 && y < 5
    ensures var j := y + 5 * ((2 * x + 3 * y) % 5);
            && RhoPiAt(s, j) == Rol(s[x + 5 * y], OffsetAt(x, y))
            && forall i: nat | i < 25 && SourceX(i) == x && SourceY(i) == y :: i == j
  {
    hide Rol, OffsetAt, SourceX, SourceY;
    SourceOf(x, y);
    forall i: nat | i < 25 && SourceX(i) == x && SourceY(i) == y ensures i == y + 5 * ((2 * x + 3 * y) % 5) {
      SourceInverse(i);
    }
  }

  // The scatter of the source: lane (x, y), rotated, goes to lane (y, 2x + 3y).
  method Scatter(state: array<Lane>) returns (b: array<Lane>)
    requires state.Length == 25
    ensures fresh(b) && b.Length == 25 && b[..] == RhoPi(state[..])
  {
    hide Rol, RhoPiAt, OffsetAt, SourceX, SourceY;
    ghost var s: State := state[..];
    b := new Lane[25](_ => 0);
    for x := 0 to 5
      invariant forall i | 0 <= i < 25 && SourceX(i) < x :: b[i] == RhoPiAt(s, i)
    {
      for y := 0 to 5
        invariant forall i | 0 <= i < 25 && (SourceX(i) < x || (SourceX(i) == x && SourceY(i) < y)) ::
                    b[i] == RhoPiAt(s, i)
      {
        SourceOf(x, y);
        Scattered(s, x, y);
        b[y + 5 * ((2 * x + 3 * y) % 5)] := Rol(state[x + 5 * y], OffsetAt(x, y));
      }
    }
  }

  method ChiInPlace(state: array<Lane>, b: array<Lane>)
    requires state.Length == 25 && b.Length == 25 && state != b
    modifies state
    ensures state[..] == Chi(b[..])
  {
    hide ChiAt, Xor, AndNot;
    ghost var s: State := b[..];
    for x := 0 to 5
      invariant b[..] == s
      invariant forall i | 0 <= i < 25 && i % 5 < x :: state[i] == ChiAt(s, i % 5, i / 5)
    {
      for y := 0 to 5
        invariant b[..] == s
        invariant forall i | 0 <= i < 25 && (i % 5 < x || (i % 5 == x && i / 5 < y)) ::
          state[i] == ChiAt(s, i % 5, i / 5)
      {
        ChiHere(s, x, y);
        state[x + 5 * y] := Xor(b[x + 5 * y], AndNot(b[(x + 1) % 5 + 5 * y], b[(x + 2) % 5 + 5 * y]));
      }
    }
  }

  lemma ChiHere(b: State, x: nat, y: nat)
    requires x < 5 && y < 5
    ensures ChiAt(b, x, y) == Xor(b[x + 5 * y], AndNot(b[(x + 1) % 5 + 5 * y], b[(x + 2) % 5 + 5 * y]))
  {
  }

  method IotaInPlace(state: array<Lane>, rc: Lane)
    requires state.Length == 25
    modifies state
    ensures state[..] == Iota(old(state[..]), rc)
  {
    hide Xor;
    state[0] := Xor(state[0], rc);
  }

  method PermuteInPlace(state: array<Lane>)
    requires state.Length == 25
    modifies state
    ensures state[..] == KeccakF(old(state[..]))
  {
    hide Theta, RhoPi, Chi, Iota;
    ghost var before: State := state[..];
    for r := 0 to |ROUND_CONSTANTS|
      invariant state[..] == Rounds(before, r)
    {
      ThetaInPlace(state);
      var b := Scatter(state);
      ChiInPlace(state, b);
      IotaInPlace(state, ROUND_CONSTANTS[r]);
    }
  }

  // ---- the hash ----

  method PadMessage(data: seq<Byte>) returns (padded: seq<Byte>)
    ensures padded == Padded(data)
  {
    padded := data + [1];
    ghost var zeros := (RATE_BYTES - 2 - |data|) % RATE_BYTES;
    ghost var n := 0;
    while |padded| % RATE_BYTES != RATE_BYTES - 1
      invariant n <= zeros && padded == data + [1] + Filler(n)
      decreases zeros - n
    {
      padded := padded + [0];
      n := n + 1;
    }
    padded := padded + [0x80];
  }

  method AbsorbBlock(state: array<Lane>, block: seq<Byte>)
    requires state.Length == 25 && |block| == RATE_BYTES
    modifies state
    ensures state[..] == KeccakF(XorBlock(old(state[..]), block))
  {
    hide KeccakF, LaneAt, Xor;
    ghost var before: State := state[..];
    for lane := 0 to RATE_BYTES / 8
      invariant forall i | 0 <= i < 25 :: state[i] == if i < lane then Xor(before[i], LaneAt(block, i)) else before[i]
    {
      state[lane] := Xor(state[lane], LaneAt(block, lane));
    }
    assert state[..] == XorBlock(before, block);
    PermuteInPlace(state);
  }

  lemma AbsorbNext(f: State -> State, s: State, p: seq<Byte>, offset: nat)
    requires offset + RATE_BYTES <= |p|
    ensures Absorb(f, s, p[offset..]) ==
            Absorb(f, f(XorBlock(s, p[offset..offset + RATE_BYTES])), p[offset + RATE_BYTES..])
  {
    hide XorBlock;
    var rest := p[offset..];
    assert rest[..RATE_BYTES] == p[offset..offset + RATE_BYTES];
    assert rest[RATE_BYTES..] == p[offset + RATE_BYTES..];
  }

  method AbsorbAll(padded: seq<Byte>) returns (state: array<Lane>)
    requires |padded| % RATE_BYTES == 0
    ensures fresh(state) && state.Length == 25 && state[..] == Absorb(KeccakF, Blank(), padded)
  {
    hide KeccakF, XorBlock, Absorb;
    state := new Lane[25](_ => 0);
    assert state[..] == Blank();
    var offset := 0;
    while offset < |padded|
      invariant 0 <= offset <= |padded| && (|padded| - offset) % RATE_BYTES == 0
      invariant Absorb(KeccakF, state[..], padded[offset..]) == Absorb(KeccakF, Blank(), padded)
    {
      AbsorbNext(KeccakF, state[..], padded, offset);
      AbsorbBlock(state, padded[offset..offset + RATE_BYTES]);
      offset := offset + RATE_BYTES;
    }
    AbsorbEnd(KeccakF, state[..], padded[offset..]);
  }

  lemma AbsorbEnd(f: State -> State, s: State, p: seq<Byte>)
    requires |p| < RATE_BYTES
    ensures Absorb(f, s, p) == s
  {
  }

  lemma {:induction false} OutputPrefix(s: State, lanes: nat, all: nat)
    requires lanes <= all <= 25
    ensures Output(s, lanes) == Output(s, all)[..8 * lanes]
  {
    hide BytesOf;
    if lanes < all {
      OutputPrefix(s, lanes, all - 1);
    }
  }

  lemma OutputNext(s: State, lanes: nat)
    requires lanes < 25
    ensures Output(s, lanes + 1) == Output(s, lanes) + BytesOf(s[lanes])
  {
  }

  // The digest is known as soon as enough lanes have been written out.
  lemma SqueezeEarly(f: State -> State, s: State, output: seq<Byte>, lanes: nat)
    requires |output| < 32 <= |output| + 8 * lanes && lanes <= 17
    ensures Squeeze(f, s, output) == (output + Output(s, lanes))[..32]
  {
    hide Output;
    OutputPrefix(s, lanes, 17);
    assert Squeeze(f, s, output) == (output + Output(s, 17))[..32];
  }

  method SqueezeOut(state: array<Lane>) returns (digest: seq<Byte>)
    requires state.Length == 25
    modifies state
    ensures digest == Squeeze(KeccakF, old(state[..]), [])
  {
    hide KeccakF, Output, BytesOf;
    ghost var start: State := state[..];
    var output := [];
    while |output| < 32
      invariant Squeeze(KeccakF, state[..], output) == Squeeze(KeccakF, start, [])
      decreases 32 - |output|
    {
      ghost var before := output;
      ghost var s: State := state[..];
      assert Output(s, 0) == [];
      for lane := 0 to RATE_BYTES / 8
        invariant state[..] == s && output == before + Output(s, lane)
      {
        output := output + BytesOf(state[lane]);
        OutputNext(s, lane);
        if |output| >= 32 {
          SqueezeEarly(KeccakF, s, before, lane + 1);
          return output[..32];
        }
      }
      PermuteInPlace(state);
    }
    return output[..32];
  }

  method Hash(data: seq<Byte>) returns (digest: seq<Byte>)
    ensures digest == Keccak256(data)
  {
    hide KeccakF, Absorb, Squeeze, Padded;
    var padded := PadMessage(data);
    var state := AbsorbAll(padded);
    digest := SqueezeOut(state);
  }
}
