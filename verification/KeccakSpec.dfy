/**
 Keccak-f[1600] bit by bit: the step mappings of section 3.2 of FIPS 202, its sponge
 (section 4) and the padding rule pad10*1 (section 5.1).
 */
module KeccakSpec {
  /** A lane, least significant bit first. */
  type Lane = l: seq<bool> | |l| == 64 witness seq(64, _ => false)

  /** A state array: bit (x, y, z) is bit z of lane x + 5 * y. */
  type State = s: seq<Lane> | |s| == 25 witness seq(25, _ => NoBits())

  function NoBits(): Lane {
    seq(64, _ => false)
  }

  /** Addition of bits. */
  function Plus(a: bool, b: bool): bool {
    a != b
  }

  function Bit(a: State, x: nat, y: nat, z: nat): bool
    requires x < 5 && y < 5 && z < 64
  {
    a[x + 5 * y][z]
  }

  function BuildLane(f: (nat, nat, nat) -> bool, x: nat, y: nat): (l: Lane)
    ensures forall z: nat | z < 64 :: l[z] == f(x, y, z)
  {
    seq(64, z requires 0 <= z < 64 => f(x, y, z))
  }

  /** The state whose bits a function gives. */
  function Build(f: (nat, nat, nat) -> bool): (s: State)
    ensures forall x: nat, y: nat, z: nat | x < 5 && y < 5 && z < 64 :: Bit(s, x, y, z) == f(x, y, z)
  {
    seq(25, i requires 0 <= i < 25 => BuildLane(f, i % 5, i / 5))
  }

  // ----- theta, section 3.2.1 -----

  function Column(a: State, x: nat, z: nat): bool
    requires x < 5 && z < 64
  {
    Plus(Plus(Plus(Plus(Bit(a, x, 0, z), Bit(a, x, 1, z)), Bit(a, x, 2, z)), Bit(a, x, 3, z)), Bit(a, x, 4, z))
  }

  function Effect(a: State, x: nat, z: nat): bool
    requires x < 5 && z < 64
  {
    Plus(Column(a, (x + 4) % 5, z), Column(a, (x + 1) % 5, (z + 63) % 64))
  }

  function Theta(a: State): State {
    Build((x: nat, y: nat, z: nat) => x < 5 && y < 5 && z < 64 && Plus(Bit(a, x, y, z), Effect(a, x, z)))
  }

  // ----- rho, section 3.2.2 -----

  /** The rotation of each lane; `OffsetsFollowTheWalk` ties it to the standard's recurrence. */
  function Offset(x: nat, y: nat): (r: nat)
    requires x < 5 && y < 5
    ensures r < 64
  {
    [[0, 36, 3, 41, 18],
     [1, 44, 10, 45, 2],
     [62, 6, 43, 15, 61],
     [28, 55, 25, 21, 56],
     [27, 20, 39, 8, 14]][x][y]
  }

  function Rho(a: State): State {
    Build((x: nat, y: nat, z: nat) => x < 5 && y < 5 && z < 64 && Bit(a, x, y, (z + 64 - Offset(x, y)) % 64))
  }

  /** The lane rotated in step t: from (1, 0), each (x, y) is followed by (y, 2x + 3y). */
  function Walk(t: nat): (p: (nat, nat))
    ensures p.0 < 5 && p.1 < 5
  {
    if t == 0 then (1, 0) else
      var (x, y) := Walk(t - 1);
      (y, (2 * x + 3 * y) % 5)
  }

  // ----- pi, chi, iota, sections 3.2.3 to 3.2.5 -----

  function Pi(a: State): State {
    Build((x: nat, y: nat, z: nat) => x < 5 && y < 5 && z < 64 && Bit(a, (x + 3 * y) % 5, x, z))
  }

  function ChiAt(a: State, x: nat, y: nat, z: nat): bool
    requires x < 5 && y < 5 && z < 64
  {
    Plus(Bit(a, x, y, z), !Bit(a, (x + 1) % 5, y, z) && Bit(a, (x + 2) % 5, y, z))
  }

  function Chi(a: State): State {
    Build((x: nat, y: nat, z: nat) => x < 5 && y < 5 && z < 64 && ChiAt(a, x, y, z))
  }

  function Iota(a: State, round: nat): State {
    Build((x: nat, y: nat, z: nat) =>
      x < 5 && y < 5 && z < 64 && Plus(Bit(a, x, y, z), x == 0 && y == 0 && ConstantBit(round, z)))
  }

  function Round(a: State, round: nat): State {
    Iota(Chi(Pi(Rho(Theta(a)))), round)
  }

  /** The first n rounds. */
  function Rounds(a: State, n: nat): State {
    if n == 0 then a else Round(Rounds(a, n - 1), n - 1)
  }

  /** Keccak-f[1600], section 3.3. */
  function Permutation(a: State): State {
    Rounds(a, 24)
  }

  // ----- the round constants, algorithm 5 -----

  /** One step of the shift register, cell k as bit k: the cell that falls out is added to cells 0, 4, 5 and 6. */
  function Feedback(r: bv8): bv8 {
    (r << 1) ^ (if r & 0x80 == 0 then 0 else 0x71)
  }

  function Register(t: nat): bv8 {
    if t == 0 then 1 else Feedback(Register(t - 1))
  }

  predicate OutputBit(t: nat) {
    Register(t) & 1 == 1
  }

  /** Bit 2^j - 1 of a round's constant is output bit j + 7 * round; all others are zero. */
  predicate ConstantBit(round: nat, z: nat) {
    (z == 0 && OutputBit(7 * round)) || (z == 1 && OutputBit(7 * round + 1)) || (z == 3 && OutputBit(7 * round + 2))
    || (z == 7 && OutputBit(7 * round + 3)) || (z == 15 && OutputBit(7 * round + 4))
    || (z == 31 && OutputBit(7 * round + 5))
    || (z == 63 && OutputBit(7 * round + 6))
  }

  /** The constants of the rounds as written words. */
  const ROUND_CONSTANTS: seq<nat> := [
    0x0000000000000001, 0x0000000000008082, 0x800000000000808A, 0x8000000080008000,
    0x000000000000808B, 0x0000000080000001, 0x8000000080008081, 0x8000000000008009,
    0x000000000000008A, 0x0000000000000088, 0x0000000080008009, 0x000000008000000A,
    0x000000008000808B, 0x800000000000008B, 0x8000000000008089, 0x8000000000008003,
    0x8000000000008002, 0x8000000000000080, 0x000000000000800A, 0x800000008000000A,
    0x8000000080008081, 0x8000000000008080, 0x0000000080000001, 0x8000000080008008]

  /** The number whose bits 0, 1, 3, 7, 15, 31 and 63 are given, and no others set. */
  function Packed(b0: bool, b1: bool, b2: bool, b3: bool, b4: bool, b5: bool, b6: bool): nat {
    (if b0 then 0x1 else 0) + (if b1 then 0x2 else 0) + (if b2 then 0x8 else 0) + (if b3 then 0x80 else 0)
    + (if b4 then 0x8000 else 0) + (if b5 then 0x8000_0000 else 0) + (if b6 then 0x8000_0000_0000_0000 else 0)
  }

  /** The register at the start of each round. */
  const REGISTERS: seq<bv8> := [
    0x01, 0x80, 0xD8, 0x1A, 0xDF, 0x09, 0x35, 0x4F, 0xCA, 0x70, 0x41, 0xEC,
    0xD5, 0xCD, 0x63, 0xAB, 0xAA, 0x2A, 0xF2, 0xE8, 0x37, 0x3E, 0x0B, 0x44]

  /** Seven steps from a known register. */
  lemma SevenSteps(t: nat)
    ensures Register(t + 1) == Feedback(Register(t)) && Register(t + 2) == Feedback(Register(t + 1))
    ensures Register(t + 3) == Feedback(Register(t + 2)) && Register(t + 4) == Feedback(Register(t + 3))
    ensures Register(t + 5) == Feedback(Register(t + 4)) && Register(t + 6) == Feedback(Register(t + 5))
    ensures Register(t + 7) == Feedback(Register(t + 6))
  {
  }

  /** What a round's starting register determines. */
  function ConstantFrom(r: bv8): nat {
    var r1 := Feedback(r); var r2 := Feedback(r1); var r3 := Feedback(r2); var r4 := Feedback(r3);
    var r5 := Feedback(r4); var r6 := Feedback(r5);
    Packed(r & 1 == 1, r1 & 1 == 1, r2 & 1 == 1, r3 & 1 == 1, r4 & 1 == 1, r5 & 1 == 1, r6 & 1 == 1)
  }

  function NextRegister(r: bv8): bv8 {
    Feedback(Feedback(Feedback(Feedback(Feedback(Feedback(Feedback(r)))))))
  }

  lemma ConstantTable(round: nat)
    requires round < 24
    ensures ConstantFrom(REGISTERS[round]) == ROUND_CONSTANTS[round]
  {
    if round < 12 {
      assert round == 0 || round == 1 || round == 2 || round == 3 || round == 4 || round == 5
             || round == 6 || round == 7 || round == 8 || round == 9 || round == 10 || round == 11;
    } else {
      assert round == 12 || round == 13 || round == 14 || round == 15 || round == 16 || round == 17
             || round == 18 || round == 19 || round == 20 || round == 21 || round == 22 || round == 23;
    }
  }

  lemma RegisterTable(round: nat)
    requires round < 23
    ensures NextRegister(REGISTERS[round]) == REGISTERS[round + 1]
  {
    assert round == 0 || round == 1 || round == 2 || round == 3 || round == 4 || round == 5 || round == 6 ||
           round == 7 ||
           round == 8 || round == 9 || round == 10 || round == 11 || round == 12 || round == 13 || round == 14 ||
             round == 15 ||
           round == 16 || round == 17 || round == 18 || round == 19 || round == 20 || round == 21 || round == 22;
  }

  lemma {:induction false} RegisterAt(round: nat)
    requires round < 24
    ensures Register(7 * round) == REGISTERS[round]
    decreases round
  {
    hide Feedback, Register, REGISTERS, ConstantFrom, ROUND_CONSTANTS;
    if round == 0 {
      RegisterStart();
    } else {
      RegisterAt(round - 1);
      RegisterTable(round - 1);
      SevenSteps(7 * (round - 1));
      assert 7 * round == 7 * (round - 1) + 7;
    }
  }

  lemma RegisterStart()
    ensures Register(0) == REGISTERS[0]
  {
  }

  /** A round's constant depends only on its starting register. */
  lemma ConstantAt(round: nat)
    ensures var t := 7 * round;
            Packed(OutputBit(t), OutputBit(t + 1), OutputBit(t + 2), OutputBit(t + 3), OutputBit(t + 4),
              OutputBit(t + 5), OutputBit(t + 6))
            == ConstantFrom(Register(t))
  {
    hide Feedback, Register, Packed;
    SevenSteps(7 * round);
  }

  /** The table of round constants is the one the standard's shift register generates. */
  lemma ConstantsFollowTheRegister(round: nat)
    requires round < 24
    ensures var t := 7 * round;
            ROUND_CONSTANTS[round] ==
              Packed(OutputBit(t), OutputBit(t + 1), OutputBit(t + 2), OutputBit(t + 3), OutputBit(t + 4),
                OutputBit(t + 5), OutputBit(t + 6))
  {
    hide Feedback, Register, REGISTERS, ConstantFrom, ROUND_CONSTANTS, NextRegister, Packed, OutputBit;
    RegisterAt(round);
    ConstantTable(round);
    ConstantAt(round);
  }

  // ----- the rotation offsets -----

  lemma WalkNext(t: nat, x: nat, y: nat)
    requires Walk(t) == (x, y)
    ensures Walk(t + 1) == (y, (2 * x + 3 * y) % 5)
  {
  }

  lemma WalkValues()
    ensures Walk(0) == (1, 0) && Walk(1) == (0, 2) && Walk(2) == (2, 1) && Walk(3) == (1, 2) && Walk(4) == (2, 3) &&
            Walk(5) == (3, 3)
    ensures Walk(6) == (3, 0) && Walk(7) == (0, 1) && Walk(8) == (1, 3) && Walk(9) == (3, 1) && Walk(10) == (1, 4) &&
            Walk(11) == (4, 4)
    ensures Walk(12) == (4, 0) && Walk(13) == (0, 3) && Walk(14) == (3, 4) && Walk(15) == (4, 3) &&
            Walk(16) == (3, 2) && Walk(17) == (2, 2)
    ensures Walk(18) == (2, 0) && Walk(19) == (0, 4) && Walk(20) == (4, 2) && Walk(21) == (2, 4) &&
            Walk(22) == (4, 1) && Walk(23) == (1, 1)
  {
    hide Walk;
    assert Walk(0) == (1, 0) by { WalkStart(); }
    WalkNext(0, 1, 0); WalkNext(1, 0, 2); WalkNext(2, 2, 1); WalkNext(3, 1, 2); WalkNext(4, 2, 3); WalkNext(5, 3, 3);
    WalkNext(6, 3, 0); WalkNext(7, 0, 1); WalkNext(8, 1, 3); WalkNext(9, 3, 1); WalkNext(10, 1, 4); WalkNext(11, 4, 4);
    WalkNext(12, 4, 0); WalkNext(13, 0, 3); WalkNext(14, 3, 4); WalkNext(15, 4, 3); WalkNext(16, 3, 2);
    WalkNext(17, 2, 2);
    WalkNext(18, 2, 0); WalkNext(19, 0, 4); WalkNext(20, 4, 2); WalkNext(21, 2, 4); WalkNext(22, 4, 1);
  }

  lemma WalkStart()
    ensures Walk(0) == (1, 0)
  {
  }

  /** The offsets are the triangular numbers along the walk. */
  lemma OffsetsFollowTheWalk(t: nat)
    requires t < 24
    ensures Offset(Walk(t).0, Walk(t).1) == (t + 1) * (t + 2) / 2 % 64
    ensures Offset(0, 0) == 0
  {
    hide Walk;
    WalkValues();
    assert t == 0 || t == 1 || t == 2 || t == 3 || t == 4 || t == 5 || t == 6 || t == 7 || t == 8 || t == 9 ||
           t == 10 || t == 11 ||
           t == 12 || t == 13 || t == 14 || t == 15 || t == 16 || t == 17 || t == 18 || t == 19 || t == 20 ||
             t == 21 || t == 22 || t == 23;
  }

  /** The walk visits every lane but the first, so it fixes every offset. */
  lemma WalkVisits(x: nat, y: nat)
    requires x < 5 && y < 5 && (x, y) != (0, 0)
    ensures exists t :: 0 <= t < 24 && Walk(t) == (x, y)
  {
    hide Walk;
    WalkValues();
  }

  // ----- the sponge, section 4, with capacity 512 -----

  const RATE: nat := 1088

  function Zeros(n: nat): (s: seq<bool>)
    ensures |s| == n && forall k :: 0 <= k < n ==> !s[k]
  {
    seq(n, _ => false)
  }

  /** pad10*1, section 5.1: a one, the least number of zeros, a one. */
  function Pad(length: nat): (p: seq<bool>)
    ensures (length + |p|) % RATE == 0 && 2 <= |p| <= RATE + 1
  {
    [true] + Zeros((2 * RATE - 2 - length % RATE) % RATE) + [true]
  }

  predicate BlockBit(block: seq<bool>, i: nat) {
    i < |block| && block[i]
  }

  /** Add a block to the first bits of the state. */
  function AddBlock(a: State, block: seq<bool>): State {
    Build((x: nat, y: nat, z: nat) => x < 5 && y < 5 && z < 64 &&
      Plus(Bit(a, x, y, z), BlockBit(block, 64 * (x + 5 * y) + z)))
  }

  function Absorb(a: State, bits: seq<bool>): State
    requires |bits| % RATE == 0
    decreases |bits|
  {
    if |bits| < RATE then a else Absorb(Permutation(AddBlock(a, bits[..RATE])), bits[RATE..])
  }

  function Blank(): (a: State)
    ensures forall x: nat, y: nat, z: nat | x < 5 && y < 5 && z < 64 :: !Bit(a, x, y, z)
  {
    Build((x: nat, y: nat, z: nat) => false)
  }

  /** The state after a padded message. */
  function Absorbed(message: seq<bool>): State {
    Absorb(Blank(), message + Pad(|message|))
  }

  /** The first 256 bits squeezed. */
  function Digest(message: seq<bool>): seq<bool> {
    Squeezed(Absorbed(message))
  }

  function Squeezed(a: State): (bits: seq<bool>)
    ensures |bits| == 256
  {
    var first: seq<bool> := a[0];
    first + a[1] + a[2] + a[3]
  }
}
