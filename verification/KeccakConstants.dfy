// The constants of the round function are those of the standard.
module KeccakConstants {
  import opened Lanes
  import K = Keccak
  import F = Fips202
  import Rotations

  // ---- rotation offsets: the walk of section 3.2.2 ----

  // The step of the walk at which lane (x, y) is visited.
  function StepAt(x: nat, y: nat): (t: nat)
    requires x < 5 && y < 5 && (x, y) != (0, 0)
    ensures t < 24
  {
    match x
    case 0 => (match y case 1 => 7 case 2 => 1 case 3 => 13 case _ => 19)
    case 1 => (match y case 0 => 0 case 1 => 23 case 2 => 3 case 3 => 8 case _ => 10)
    case 2 => (match y case 0 => 18 case 1 => 2 case 2 => 17 case 3 => 4 case _ => 21)
    case 3 => (match y case 0 => 6 case 1 => 9 case 2 => 16 case 3 => 5 case _ => 14)
    case _ => (match y case 0 => 12 case 1 => 22 case 2 => 20 case 3 => 15 case _ => 11)
  }

  lemma WalkTable()
    ensures F.Walk(0) == (1, 0) && F.Walk(1) == (0, 2) && F.Walk(2) == (2, 1) && F.Walk(3) == (1, 2)
    ensures F.Walk(4) == (2, 3) && F.Walk(5) == (3, 3) && F.Walk(6) == (3, 0) && F.Walk(7) == (0, 1)
    ensures F.Walk(8) == (1, 3) && F.Walk(9) == (3, 1) && F.Walk(10) == (1, 4) && F.Walk(11) == (4, 4)
    ensures F.Walk(12) == (4, 0) && F.Walk(13) == (0, 3) && F.Walk(14) == (3, 4) && F.Walk(15) == (4, 3)
    ensures F.Walk(16) == (3, 2) && F.Walk(17) == (2, 2) && F.Walk(18) == (2, 0) && F.Walk(19) == (0, 4)
    ensures F.Walk(20) == (4, 2) && F.Walk(21) == (2, 4) && F.Walk(22) == (4, 1) && F.Walk(23) == (1, 1)
  {
    assert F.Walk(0) == (1, 0);
    assert F.Walk(1) == (0, 2);
    assert F.Walk(2) == (2, 1);
    assert F.Walk(3) == (1, 2);
    assert F.Walk(4) == (2, 3);
    assert F.Walk(5) == (3, 3);
    assert F.Walk(6) == (3, 0);
    assert F.Walk(7) == (0, 1);
    assert F.Walk(8) == (1, 3);
    assert F.Walk(9) == (3, 1);
    assert F.Walk(10) == (1, 4);
    assert F.Walk(11) == (4, 4);
    assert F.Walk(12) == (4, 0);
    assert F.Walk(13) == (0, 3);
    assert F.Walk(14) == (3, 4);
    assert F.Walk(15) == (4, 3);
    assert F.Walk(16) == (3, 2);
    assert F.Walk(17) == (2, 2);
    assert F.Walk(18) == (2, 0);
    assert F.Walk(19) == (0, 4);
    assert F.Walk(20) == (4, 2);
    assert F.Walk(21) == (2, 4);
    assert F.Walk(22) == (4, 1);
    assert F.Walk(23) == (1, 1);
  }

  lemma {:induction false} StepFound(x: int, y: int, t: nat, found: nat)
    requires t <= found < 24 && F.Walk(found) == (x, y)
    requires forall u: nat | u < found :: F.Walk(u) != (x, y)
    ensures F.StepOf(x, y, t) == found
    decreases found - t
  {
    if t < found {
      StepFound(x, y, t + 1, found);
    }
  }

  lemma WalkVisits(x: nat, y: nat)
    requires x < 5 && y < 5 && (x, y) != (0, 0)
    ensures F.Walk(StepAt(x, y)) == (x, y)
    ensures forall u: nat | u < StepAt(x, y) :: F.Walk(u) != (x, y)
  {
    hide F.Walk;
    WalkTable();
  }

  // The offsets as counts.
  function TurnsAt(x: nat, y: nat): nat
    requires x < 5 && y < 5
  {
    match x
    case 0 => (match y case 0 => 0 case 1 => 36 case 2 => 3 case 3 => 41 case _ => 18)
    case 1 => (match y case 0 => 1 case 1 => 44 case 2 => 10 case 3 => 45 case _ => 2)
    case 2 => (match y case 0 => 62 case 1 => 6 case 2 => 43 case 3 => 15 case _ => 61)
    case 3 => (match y case 0 => 28 case 1 => 55 case 2 => 25 case 3 => 21 case _ => 56)
    case _ => (match y case 0 => 27 case 1 => 20 case 2 => 39 case 3 => 8 case _ => 14)
  }

  lemma StepTurns(x: nat, y: nat)
    requires x < 5 && y < 5 && (x, y) != (0, 0)
    ensures (StepAt(x, y) + 1) * (StepAt(x, y) + 2) / 2 % 64 == TurnsAt(x, y)
  {
  }

  lemma Column0Shifts(y: nat)
    requires y < 5
    ensures Rotations.Offset(TurnsAt(0, y)) && K.OffsetAt(0, y) == Rotations.ShiftFor(TurnsAt(0, y))
  {
  }

  lemma Column1Shifts(y: nat)
    requires y < 5
    ensures Rotations.Offset(TurnsAt(1, y)) && K.OffsetAt(1, y) == Rotations.ShiftFor(TurnsAt(1, y))
  {
  }

  lemma Column2Shifts(y: nat)
    requires y < 5
    ensures Rotations.Offset(TurnsAt(2, y)) && K.OffsetAt(2, y) == Rotations.ShiftFor(TurnsAt(2, y))
  {
  }

  lemma Column3Shifts(y: nat)
    requires y < 5
    ensures Rotations.Offset(TurnsAt(3, y)) && K.OffsetAt(3, y) == Rotations.ShiftFor(TurnsAt(3, y))
  {
  }

  lemma Column4Shifts(y: nat)
    requires y < 5
    ensures Rotations.Offset(TurnsAt(4, y)) && K.OffsetAt(4, y) == Rotations.ShiftFor(TurnsAt(4, y))
  {
  }

  lemma TableShifts(x: nat, y: nat)
    requires x < 5 && y < 5
    ensures Rotations.Offset(TurnsAt(x, y)) && K.OffsetAt(x, y) == Rotations.ShiftFor(TurnsAt(x, y))
  {
    hide TurnsAt, Rotations.Offset, Rotations.ShiftFor, K.OffsetAt;
    match x
    case 0 => Column0Shifts(y);
    case 1 => Column1Shifts(y);
    case 2 => Column2Shifts(y);
    case 3 => Column3Shifts(y);
    case 4 => Column4Shifts(y);
  }

  lemma NoTurns()
    ensures TurnsAt(0, 0) == 0
  {
  }

  lemma Offsets(x: nat, y: nat)
    requires x < 5 && y < 5
    ensures var n := F.OffsetOf(x, y) % 64;
            Rotations.Offset(n) && K.OffsetAt(x, y) == Rotations.ShiftFor(n)
  {
    hide F.Walk, F.StepOf, StepAt, TurnsAt, K.OffsetAt, Rotations.Offset, Rotations.ShiftFor;
    TableShifts(x, y);
    if (x, y) == (0, 0) {
      NoTurns();
    } else {
      WalkVisits(x, y);
      StepFound(x, y, 0, StepAt(x, y));
      StepTurns(x, y);
    }
  }

  // ---- round constants: the register of section 3.2.5 ----

  function Clocks(r: F.Register, n: nat): F.Register {
    if n == 0 then r else F.Clock(Clocks(r, n - 1))
  }

  lemma {:induction false} RegisterLater(t: nat, n: nat)
    ensures F.RegisterAt(t + n) == Clocks(F.RegisterAt(t), n)
  {
    if n > 0 {
      RegisterLater(t, n - 1);
    }
  }

  // The register after three clocks, after four, and after seven.
  function Three(r: F.Register): F.Register {
    F.Register(
      r.r5 != r.r7, r.r6, r.r7, r.r0, (r.r1 != r.r5) != r.r7, ((r.r2 != r.r5) != r.r6) != r.r7,
      (r.r3 != r.r5) != r.r6, (r.r4 != r.r6) != r.r7)
  }

  function Four(r: F.Register): F.Register {
    F.Register(
      (r.r4 != r.r6) != r.r7, r.r5 != r.r7, r.r6, r.r7,
      ((r.r0 != r.r4) != r.r6) != r.r7, ((r.r1 != r.r4) != r.r5) != r.r6, (r.r2 != r.r4) != r.r5,
      (r.r3 != r.r5) != r.r6)
  }

  function Seven(r: F.Register): F.Register {
    F.Register(
      (r.r1 != r.r3) != r.r4, (r.r2 != r.r4) != r.r5,
      (r.r3 != r.r5) != r.r6, (r.r4 != r.r6) != r.r7,
      (((r.r1 != r.r3) != r.r4) != r.r5) != r.r7, (((r.r1 != r.r2) != r.r3) != r.r5) != r.r6,
      ((r.r1 != r.r2) != r.r6) != r.r7, ((r.r0 != r.r2) != r.r3) != r.r7)
  }

  lemma SevenClocks(r: F.Register)
    ensures Clocks(r, 7) == Seven(r)
  {
    hide Clocks, F.Clock, Three, Four, Seven;
    NoClock(r);
    ThreeClocks(r, 0);
    FourthClock(r);
    ThreeClocks(r, 4);
    ThreeAfterFour(r);
  }

  // The bits the register gives out on the way.
  lemma FirstBits(r: F.Register)
    ensures Clocks(r, 0).r0 == r.r0
    ensures Clocks(r, 1).r0 == r.r7
    ensures Clocks(r, 2).r0 == r.r6
    ensures Clocks(r, 3).r0 == (r.r5 != r.r7)
  {
    hide Clocks, F.Clock;
    NoClock(r);
    ThreeClocks(r, 0);
  }

  lemma LaterBits(r: F.Register)
    ensures Clocks(r, 4).r0 == ((r.r4 != r.r6) != r.r7)
    ensures Clocks(r, 5).r0 == ((r.r3 != r.r5) != r.r6)
    ensures Clocks(r, 6).r0 == ((r.r2 != r.r4) != r.r5)
  {
    hide Clocks, F.Clock, Three;
    NoClock(r);
    ThreeClocks(r, 0);
    FourthClock(r);
    ThreeClocks(r, 4);
  }

  lemma ThreeClocks(r: F.Register, n: nat)
    ensures var a := Clocks(r, n);
            Clocks(r, n + 1).r0 == a.r7 && Clocks(r, n + 2).r0 == a.r6 && Clocks(r, n + 3) == Three(a)
  {
    hide Clocks;
    OneClock(r, n);
    OneClock(r, n + 1);
    OneClock(r, n + 2);
  }

  lemma FourthClock(r: F.Register)
    requires Clocks(r, 3) == Three(r)
    ensures Clocks(r, 4) == Four(r)
  {
    hide Clocks;
    OneClock(r, 3);
  }

  lemma ThreeAfterFour(r: F.Register)
    ensures Three(Four(r)) == Seven(r)
  {
  }

  lemma NoClock(r: F.Register)
    ensures Clocks(r, 0) == r
  {
  }

  lemma OneClock(r: F.Register, n: nat)
    ensures Clocks(r, n + 1) == F.Clock(Clocks(r, n))
  {
    hide F.Clock;
  }

  // The register at the start of each round.
  function RoundRegister(round: nat): F.Register
    requires round < 24
  {
    match round
    case 0 => F.Register(true, false, false, false, false, false, false, false)
    case 1 => F.Register(false, false, false, false, false, false, false, true)
    case 2 => F.Register(false, false, false, true, true, false, true, true)
    case 3 => F.Register(false, true, false, true, true, false, false, false)
    case 4 => F.Register(true, true, true, true, true, false, true, true)
    case 5 => F.Register(true, false, false, true, false, false, false, false)
    case 6 => F.Register(true, false, true, false, true, true, false, false)
    case 7 => F.Register(true, true, true, true, false, false, true, false)
    case 8 => F.Register(false, true, false, true, false, false, true, true)
    case 9 => F.Register(false, false, false, false, true, true, true, false)
    case 10 => F.Register(true, false, false, false, false, false, true, false)
    case 11 => F.Register(false, false, true, true, false, true, true, true)
    case 12 => F.Register(true, false, true, false, true, false, true, true)
    case 13 => F.Register(true, false, true, true, false, false, true, true)
    case 14 => F.Register(true, true, false, false, false, true, true, false)
    case 15 => F.Register(true, true, false, true, false, true, false, true)
    case 16 => F.Register(false, true, false, true, false, true, false, true)
    case 17 => F.Register(false, true, false, true, false, true, false, false)
    case 18 => F.Register(false, true, false, false, true, true, true, true)
    case 19 => F.Register(false, false, false, true, false, true, true, true)
    case 20 => F.Register(true, true, true, false, true, true, false, false)
    case 21 => F.Register(false, true, true, true, true, true, false, false)
    case 22 => F.Register(true, true, false, true, false, false, false, false)
    case _ => F.Register(false, false, true, false, false, false, true, false)
  }

  lemma RegistersFollow(round: nat)
    requires round < 23
    ensures RoundRegister(round + 1) == Seven(RoundRegister(round))
  {
    match round
    case 0 => assert RoundRegister(1) == Seven(RoundRegister(0));
    case 1 => assert RoundRegister(2) == Seven(RoundRegister(1));
    case 2 => assert RoundRegister(3) == Seven(RoundRegister(2));
    case 3 => assert RoundRegister(4) == Seven(RoundRegister(3));
    case 4 => assert RoundRegister(5) == Seven(RoundRegister(4));
    case 5 => assert RoundRegister(6) == Seven(RoundRegister(5));
    case 6 => assert RoundRegister(7) == Seven(RoundRegister(6));
    case 7 => assert RoundRegister(8) == Seven(RoundRegister(7));
    case 8 => assert RoundRegister(9) == Seven(RoundRegister(8));
    case 9 => assert RoundRegister(10) == Seven(RoundRegister(9));
    case 10 => assert RoundRegister(11) == Seven(RoundRegister(10));
    case 11 => assert RoundRegister(12) == Seven(RoundRegister(11));
    case 12 => assert RoundRegister(13) == Seven(RoundRegister(12));
    case 13 => assert RoundRegister(14) == Seven(RoundRegister(13));
    case 14 => assert RoundRegister(15) == Seven(RoundRegister(14));
    case 15 => assert RoundRegister(16) == Seven(RoundRegister(15));
    case 16 => assert RoundRegister(17) == Seven(RoundRegister(16));
    case 17 => assert RoundRegister(18) == Seven(RoundRegister(17));
    case 18 => assert RoundRegister(19) == Seven(RoundRegister(18));
    case 19 => assert RoundRegister(20) == Seven(RoundRegister(19));
    case 20 => assert RoundRegister(21) == Seven(RoundRegister(20));
    case 21 => assert RoundRegister(22) == Seven(RoundRegister(21));
    case 22 => assert RoundRegister(23) == Seven(RoundRegister(22));
  }

  lemma FirstRegister()
    ensures F.RegisterAt(0) == RoundRegister(0)
  {
  }

  lemma {:induction false} RegisterTable(round: nat)
    requires round < 24
    ensures F.RegisterAt(7 * round) == RoundRegister(round)
  {
    hide Seven, Clocks, RoundRegister, F.RegisterAt;
    if round == 0 {
      FirstRegister();
    } else {
      RegisterTable(round - 1);
      RegistersFollow(round - 1);
      RegisterLater(7 * (round - 1), 7);
      SevenClocks(RoundRegister(round - 1));
    }
  }

  // The lane with the given bits 0, 1, 3, 7, 15, 31 and 63.
  function Assemble(b0: bool, b1: bool, b3: bool, b7: bool, b15: bool, b31: bool, b63: bool): Lane {
    (if b0 then 1 else 0) | (if b1 then 0x2 else 0) | (if b3 then 0x8 else 0) | (if b7 then 0x80 else 0)
    | (if b15 then 0x8000 else 0) | (if b31 then 0x8000_0000 else 0) | (if b63 then 0x8000_0000_0000_0000 else 0)
  }

  lemma AssembledHits(b0: bool, b1: bool, b3: bool, b7: bool, b15: bool, b31: bool, b63: bool, v: Lane, m: Lane)
    requires v == Assemble(b0, b1, b3, b7, b15, b31, b63)
    ensures Hits(v, 1) == b0 && Hits(v, 0x2) == b1 && Hits(v, 0x8) == b3 && Hits(v, 0x80) == b7
    ensures Hits(v, 0x8000) == b15 && Hits(v, 0x8000_0000) == b31 && Hits(v, 0x8000_0000_0000_0000) == b63
    ensures (&& OneHot(m) && m != 1 && m != 0x2 && m != 0x8 && m != 0x80
             && m != 0x8000 && m != 0x8000_0000 && m != 0x8000_0000_0000_0000) ==> !Hits(v, m)
  {
  }

  lemma OutputBits(round: nat)
    requires round < 24
    ensures var r := RoundRegister(round);
            && F.RoundBit(round, 0) == r.r0
            && F.RoundBit(round, 1) == r.r7
            && F.RoundBit(round, 3) == r.r6
            && F.RoundBit(round, 7) == (r.r5 != r.r7)
            && F.RoundBit(round, 15) == ((r.r4 != r.r6) != r.r7)
            && F.RoundBit(round, 31) == ((r.r3 != r.r5) != r.r6)
            && F.RoundBit(round, 63) == ((r.r2 != r.r4) != r.r5)
  {
    hide Clocks, RoundRegister, F.RegisterAt, F.Rc;
    FirstBits(RoundRegister(round));
    LaterBits(RoundRegister(round));
    RcOf(round, 0);
    RcOf(round, 1);
    RcOf(round, 2);
    RcOf(round, 3);
    RcOf(round, 4);
    RcOf(round, 5);
    RcOf(round, 6);
  }

  lemma RcOf(round: nat, j: nat)
    requires round < 24 && j < 7
    ensures F.Rc(j + 7 * round) == Clocks(RoundRegister(round), j).r0
  {
    hide Clocks, RoundRegister, F.RegisterAt;
    RegisterTable(round);
    RegisterLater(7 * round, j);
  }

  function RegisterConstant(r: F.Register): Lane {
    Assemble(r.r0, r.r7, r.r6, r.r5 != r.r7, (r.r4 != r.r6) != r.r7, (r.r3 != r.r5) != r.r6, (r.r2 != r.r4) != r.r5)
  }

  lemma FirstRegisters()
    ensures RegisterConstant(F.Register(true, false, false, false, false, false, false, false)) == 0x0000000000000001
    ensures RegisterConstant(F.Register(false, false, false, false, false, false, false, true)) == 0x0000000000008082
    ensures RegisterConstant(F.Register(false, false, false, true, true, false, true, true)) == 0x800000000000808A
    ensures RegisterConstant(F.Register(false, true, false, true, true, false, false, false)) == 0x8000000080008000
    ensures RegisterConstant(F.Register(true, true, true, true, true, false, true, true)) == 0x000000000000808B
    ensures RegisterConstant(F.Register(true, false, false, true, false, false, false, false)) == 0x0000000080000001
    ensures RegisterConstant(F.Register(true, false, true, false, true, true, false, false)) == 0x8000000080008081
    ensures RegisterConstant(F.Register(true, true, true, true, false, false, true, false)) == 0x8000000000008009
  {
  }

  lemma FirstConstants(round: nat)
    requires 0 <= round < 8
    ensures K.ROUND_CONSTANTS[round] == RegisterConstant(RoundRegister(round))
  {
    hide RegisterConstant;
    FirstRegisters();
  }

  lemma SecondRegisters()
    ensures RegisterConstant(F.Register(false, true, false, true, false, false, true, true)) == 0x000000000000008A
    ensures RegisterConstant(F.Register(false, false, false, false, true, true, true, false)) == 0x0000000000000088
    ensures RegisterConstant(F.Register(true, false, false, false, false, false, true, false)) == 0x0000000080008009
    ensures RegisterConstant(F.Register(false, false, true, true, false, true, true, true)) == 0x000000008000000A
    ensures RegisterConstant(F.Register(true, false, true, false, true, false, true, true)) == 0x000000008000808B
    ensures RegisterConstant(F.Register(true, false, true, true, false, false, true, true)) == 0x800000000000008B
    ensures RegisterConstant(F.Register(true, true, false, false, false, true, true, false)) == 0x8000000000008089
    ensures RegisterConstant(F.Register(true, true, false, true, false, true, false, true)) == 0x8000000000008003
  {
  }

  lemma SecondConstants(round: nat)
    requires 8 <= round < 16
    ensures K.ROUND_CONSTANTS[round] == RegisterConstant(RoundRegister(round))
  {
    hide RegisterConstant;
    SecondRegisters();
  }

  lemma ThirdRegisters()
    ensures RegisterConstant(F.Register(false, true, false, true, false, true, false, true)) == 0x8000000000008002
    ensures RegisterConstant(F.Register(false, true, false, true, false, true, false, false)) == 0x8000000000000080
    ensures RegisterConstant(F.Register(false, true, false, false, true, true, true, true)) == 0x000000000000800A
    ensures RegisterConstant(F.Register(false, false, false, true, false, true, true, true)) == 0x800000008000000A
    ensures RegisterConstant(F.Register(true, true, true, false, true, true, false, false)) == 0x8000000080008081
    ensures RegisterConstant(F.Register(false, true, true, true, true, true, false, false)) == 0x8000000000008080
    ensures RegisterConstant(F.Register(true, true, false, true, false, false, false, false)) == 0x0000000080000001
    ensures RegisterConstant(F.Register(false, false, true, false, false, false, true, false)) == 0x8000000080008008
  {
  }

  lemma ThirdConstants(round: nat)
    requires 16 <= round < 24
    ensures K.ROUND_CONSTANTS[round] == RegisterConstant(RoundRegister(round))
  {
    hide RegisterConstant;
    ThirdRegisters();
  }

  lemma ConstantTable(round: nat)
    requires round < 24
    ensures K.ROUND_CONSTANTS[round] == RegisterConstant(RoundRegister(round))
  {
    hide RegisterConstant, RoundRegister;
    if round < 8 { FirstConstants(round); }
    else if round < 16 { SecondConstants(round); }
    else { ThirdConstants(round); }
  }

  lemma ConstantBits(round: nat, z: nat)
    requires round < 24 && z < 64
    ensures Bit(K.ROUND_CONSTANTS[round], z) == F.RoundBit(round, z)
  {
    hide Assemble, RoundRegister, F.Rc, OneHot, Hits, Mask;
    ConstantTable(round);
    OutputBits(round);
    MaskOneHot(z);
    AssembledHits(F.RoundBit(round, 0), F.RoundBit(round, 1), F.RoundBit(round, 3), F.RoundBit(round, 7),
                  F.RoundBit(round, 15), F.RoundBit(round, 31), F.RoundBit(round, 63),
                  K.ROUND_CONSTANTS[round], Mask(z));
    SpecialMasks(z);
  }

  // Every mask other than the seven is none of the seven.
  lemma SpecialMasks(z: nat)
    requires z < 64
    ensures Mask(0) == 1 && Mask(1) == 0x2 && Mask(3) == 0x8 && Mask(7) == 0x80
    ensures Mask(15) == 0x8000 && Mask(31) == 0x8000_0000 && Mask(63) == 0x8000_0000_0000_0000
    ensures forall y: nat | y in {0, 1, 3, 7, 15, 31, 63} && y != z :: Mask(y) != Mask(z)
  {
    hide Mask;
    LowMasks();
    MaskTop();
    forall y: nat | y in {0, 1, 3, 7, 15, 31, 63} && y != z ensures Mask(y) != Mask(z) {
      if y < z { MaskGrows(y, z); } else { MaskGrows(z, y); }
    }
  }
}
