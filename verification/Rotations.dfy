// Rotating by any offset of the round function is rotating by one bit that often.
module Rotations {
  import opened Lanes

  function Turn(a: Lane, n: nat): Lane {
    if n == 0 then a else TurnOnce(Turn(a, n - 1))
  }

  lemma {:induction false} TurnSum(a: Lane, m: nat, n: nat)
    ensures Turn(Turn(a, m), n) == Turn(a, m + n)
  {
    if n > 0 {
      TurnSum(a, m, n - 1);
    }
  }

  lemma OneFurther(n: nat)
    ensures (n % 64 + 1) % 64 == (n + 1) % 64
  {
  }

  lemma {:induction false} BitTurn(a: Lane, n: nat, z: nat)
    requires z < 64
    ensures Bit(Turn(a, n), (z + n) % 64) == Bit(a, z)
  {
    hide Bit, TurnOnce;
    if n > 0 {
      BitTurn(a, n - 1, z);
      BitTurned(Turn(a, n - 1), (z + n - 1) % 64);
      OneFurther(z + n - 1);
    }
  }

  // ---- every offset is the sum of two smaller ones ----

  lemma RolBy1(a: Lane)
    ensures Rol(a, 1) == Turn(a, 1)
  {
    assert Turn(a, 0) == a;
  }

  lemma RolBy2(a: Lane)
    ensures Rol(a, 2) == Rol(Rol(a, 1), 1)
  {
  }

  lemma RolBy3(a: Lane)
    ensures Rol(a, 3) == Rol(Rol(a, 2), 1)
  {
  }

  lemma RolBy6(a: Lane)
    ensures Rol(a, 6) == Rol(Rol(a, 3), 3)
  {
  }

  lemma RolBy8(a: Lane)
    ensures Rol(a, 8) == Rol(Rol(a, 6), 2)
  {
  }

  lemma RolBy10(a: Lane)
    ensures Rol(a, 10) == Rol(Rol(a, 8), 2)
  {
  }

  lemma RolBy14(a: Lane)
    ensures Rol(a, 14) == Rol(Rol(a, 8), 6)
  {
  }

  lemma RolBy15(a: Lane)
    ensures Rol(a, 15) == Rol(Rol(a, 14), 1)
  {
  }

  lemma RolBy18(a: Lane)
    ensures Rol(a, 18) == Rol(Rol(a, 10), 8)
  {
  }

  lemma RolBy20(a: Lane)
    ensures Rol(a, 20) == Rol(Rol(a, 10), 10)
  {
  }

  lemma RolBy21(a: Lane)
    ensures Rol(a, 21) == Rol(Rol(a, 20), 1)
  {
  }

  lemma RolBy25(a: Lane)
    ensures Rol(a, 25) == Rol(Rol(a, 15), 10)
  {
  }

  lemma RolBy27(a: Lane)
    ensures Rol(a, 27) == Rol(Rol(a, 25), 2)
  {
  }

  lemma RolBy28(a: Lane)
    ensures Rol(a, 28) == Rol(Rol(a, 14), 14)
  {
  }

  lemma RolBy36(a: Lane)
    ensures Rol(a, 36) == Rol(Rol(a, 18), 18)
  {
  }

  lemma RolBy39(a: Lane)
    ensures Rol(a, 39) == Rol(Rol(a, 36), 3)
  {
  }

  lemma RolBy41(a: Lane)
    ensures Rol(a, 41) == Rol(Rol(a, 39), 2)
  {
  }

  lemma RolBy43(a: Lane)
    ensures Rol(a, 43) == Rol(Rol(a, 41), 2)
  {
  }

  lemma RolBy44(a: Lane)
    ensures Rol(a, 44) == Rol(Rol(a, 43), 1)
  {
  }

  lemma RolBy45(a: Lane)
    ensures Rol(a, 45) == Rol(Rol(a, 44), 1)
  {
  }

  lemma RolBy55(a: Lane)
    ensures Rol(a, 55) == Rol(Rol(a, 45), 10)
  {
  }

  lemma RolBy56(a: Lane)
    ensures Rol(a, 56) == Rol(Rol(a, 55), 1)
  {
  }

  lemma RolBy61(a: Lane)
    ensures Rol(a, 61) == Rol(Rol(a, 41), 20)
  {
  }

  lemma RolBy62(a: Lane)
    ensures Rol(a, 62) == Rol(Rol(a, 61), 1)
  {
  }

  // The offsets of the round function, as counts and as shift amounts.
  predicate Offset(n: nat) {
    n in {0, 1, 2, 3, 6, 8, 10, 14, 15, 18, 20, 21, 25, 27, 28, 36, 39, 41, 43, 44, 45, 55, 56, 61, 62}
  }

  function ShiftFor(n: nat): (s: Lane)
    requires Offset(n)
    ensures s < 64
  {
    match n
    case 0 => 0
    case 1 => 1
    case 2 => 2
    case 3 => 3
    case 6 => 6
    case 8 => 8
    case 10 => 10
    case 14 => 14
    case 15 => 15
    case 18 => 18
    case 20 => 20
    case 21 => 21
    case 25 => 25
    case 27 => 27
    case 28 => 28
    case 36 => 36
    case 39 => 39
    case 41 => 41
    case 43 => 43
    case 44 => 44
    case 45 => 45
    case 55 => 55
    case 56 => 56
    case 61 => 61
    case _ => 62
  }

  lemma {:induction false} RolTurns(a: Lane, n: nat)
    requires Offset(n)
    ensures Rol(a, ShiftFor(n)) == Turn(a, n)
    decreases n, 0
  {
    hide Rol, Turn;
    match n
    case 0 => NoTurn(a);
    case 1 => RolBy1(a);
    case 2 =>
      RolBy2(a);
      Compose(a, 1, 1);
    case 3 =>
      RolBy3(a);
      Compose(a, 2, 1);
    case 6 =>
      RolBy6(a);
      Compose(a, 3, 3);
    case 8 =>
      RolBy8(a);
      Compose(a, 6, 2);
    case 10 =>
      RolBy10(a);
      Compose(a, 8, 2);
    case 14 =>
      RolBy14(a);
      Compose(a, 8, 6);
    case 15 =>
      RolBy15(a);
      Compose(a, 14, 1);
    case 18 =>
      RolBy18(a);
      Compose(a, 10, 8);
    case 20 =>
      RolBy20(a);
      Compose(a, 10, 10);
    case 21 =>
      RolBy21(a);
      Compose(a, 20, 1);
    case 25 =>
      RolBy25(a);
      Compose(a, 15, 10);
    case 27 =>
      RolBy27(a);
      Compose(a, 25, 2);
    case 28 =>
      RolBy28(a);
      Compose(a, 14, 14);
    case 36 =>
      RolBy36(a);
      Compose(a, 18, 18);
    case 39 =>
      RolBy39(a);
      Compose(a, 36, 3);
    case 41 =>
      RolBy41(a);
      Compose(a, 39, 2);
    case 43 =>
      RolBy43(a);
      Compose(a, 41, 2);
    case 44 =>
      RolBy44(a);
      Compose(a, 43, 1);
    case 45 =>
      RolBy45(a);
      Compose(a, 44, 1);
    case 55 =>
      RolBy55(a);
      Compose(a, 45, 10);
    case 56 =>
      RolBy56(a);
      Compose(a, 55, 1);
    case 61 =>
      RolBy61(a);
      Compose(a, 41, 20);
    case 62 =>
      RolBy62(a);
      Compose(a, 61, 1);
  }

  lemma NoTurn(a: Lane)
    ensures Rol(a, 0) == Turn(a, 0)
  {
  }

  lemma {:induction false} Compose(a: Lane, m: nat, n: nat)
    requires Offset(m) && Offset(n) && 0 < m && 0 < n
    ensures Rol(Rol(a, ShiftFor(m)), ShiftFor(n)) == Turn(a, m + n)
    decreases m + n - 1, 1
  {
    hide Rol, Turn, Offset, ShiftFor;
    RolTurns(a, m);
    RolTurns(Rol(a, ShiftFor(m)), n);
    TurnSum(a, m, n);
  }

  // A rotation moves bit z to bit z + n, around the lane.
  lemma BitRol(a: Lane, n: nat, z: nat)
    requires Offset(n) && z < 64
    ensures Bit(Rol(a, ShiftFor(n)), z) == Bit(a, (z - n) % 64)
  {
    hide Rol, Turn, Bit, Offset, ShiftFor;
    RolTurns(a, n);
    BitTurn(a, n, (z - n) % 64);
    assert ((z - n) % 64 + n) % 64 == z;
  }
}
