/**
 The seeder's pure Keccak-256, with the lane loops that update a state in place. An integer
 is its bits, least significant first, with any number of zero bits above; so a word that was
 not masked shows as a longer one.
 */
module Keccak {
  import opened Binary
  import opened KeccakSpec

  type Word = seq<bool>

  predicate At(v: Word, z: nat) {
    z < |v| && v[z]
  }

  function Longer(a: Word, b: Word): nat {
    if |a| < |b| then |b| else |a|
  }

  /** `a ^ b`. */
  function Xor(a: Word, b: Word): (r: Word)
    ensures |r| == Longer(a, b) && forall z: nat :: At(r, z) == Plus(At(a, z), At(b, z))
  {
    seq(Longer(a, b), z requires 0 <= z => Plus(At(a, z), At(b, z)))
  }

  /** `a | b`. */
  function Or(a: Word, b: Word): (r: Word)
    ensures |r| == Longer(a, b) && forall z: nat :: At(r, z) == (At(a, z) || At(b, z))
  {
    seq(Longer(a, b), z requires 0 <= z => At(a, z) || At(b, z))
  }

  /** `~b & c`. */
  function AndNot(b: Word, c: Word): (r: Word)
    ensures |r| == |c| && forall z: nat :: At(r, z) == (!At(b, z) && At(c, z))
  {
    seq(|c|, z requires 0 <= z => !At(b, z) && At(c, z))
  }

  /** `v & _MASK64`. */
  function Mask64(v: Word): (r: Word)
    ensures |r| == 64 && forall z: nat :: At(r, z) == (z < 64 && At(v, z))
  {
    seq(64, z requires 0 <= z => At(v, z))
  }

  /** `v << s`. */
  function ShiftLeft(v: Word, s: nat): (r: Word)
    ensures forall z: nat :: At(r, z) == (s <= z && At(v, z - s))
  {
    Zeros(s) + v
  }

  /** `v >> s`. */
  function ShiftRight(v: Word, s: nat): (r: Word)
    ensures forall z: nat :: At(r, z) == At(v, z + s)
  {
    if s <= |v| then v[s..] else []
  }

  /** `_rotl64`. */
  function Rotl64(value: Word, shift: nat): (r: Word)
    requires shift < 64
    ensures |r| == 64
  {
    var v := Mask64(value);
    if shift == 0 then v else Mask64(Or(ShiftLeft(v, shift), ShiftRight(v, 64 - shift)))
  }

  /** The masked rotation moves bit z - shift to bit z, around the lane. */
  lemma RotlBit(v: Word, shift: nat, z: nat)
    requires |v| == 64 && shift < 64 && z < 64
    ensures At(Rotl64(v, shift), z) == v[(z + 64 - shift) % 64]
  {
    hide Mask64, Or, ShiftLeft, ShiftRight;
    assert At(v, z) == v[z];
    if shift != 0 {
      var w := Mask64(v);
      assert At(Rotl64(v, shift), z) == (At(ShiftLeft(w, shift), z) || At(ShiftRight(w, 64 - shift), z));
      if z < shift {
        assert (z + 64 - shift) % 64 == z + 64 - shift;
        assert At(ShiftRight(w, 64 - shift), z) == At(w, z + 64 - shift) == v[z + 64 - shift];
      } else {
        assert (z + 64 - shift) % 64 == z - shift;
        assert At(ShiftLeft(w, shift), z) == At(w, z - shift) == v[z - shift];
      }
    }
  }

  /** Every word of the state is below 2^64. */
  predicate InRange(s: seq<Word>) {
    |s| == 25 && forall i :: 0 <= i < 25 ==> |s[i]| == 64
  }

  /** The state array 25 such words stand for. */
  function Abs(s: seq<Word>): (a: State)
    requires InRange(s)
    ensures forall i :: 0 <= i < 25 ==> a[i] == s[i]
  {
    seq(25, i requires 0 <= i < 25 => s[i])
  }

  /** Two states with the same bits are the same. */
  lemma SameBits(a: State, b: State)
    requires forall x: nat, y: nat, z: nat | x < 5 && y < 5 && z < 64 :: Bit(a, x, y, z) == Bit(b, x, y, z)
    ensures a == b
  {
    forall i | 0 <= i < 25 ensures a[i] == b[i] {
      var x, y := i % 5, i / 5;
      assert i == x + 5 * y;
      forall z | 0 <= z < 64 ensures a[i][z] == b[i][z] { assert Bit(a, x, y, z) == Bit(b, x, y, z); }
    }
  }

  // ----- theta -----

  function ColumnWord(s: seq<Word>, x: nat): Word
    requires InRange(s) && x < 5
  {
    Xor(Xor(Xor(Xor(s[x], s[x + 5]), s[x + 10]), s[x + 15]), s[x + 20])
  }

  lemma ColumnBits(s: seq<Word>, x: nat)
    requires InRange(s) && x < 5
    ensures |ColumnWord(s, x)| == 64 && forall z: nat | z < 64 :: ColumnWord(s, x)[z] == Column(Abs(s), x, z)
  {
    forall z: nat | z < 64 ensures ColumnWord(s, x)[z] == Column(Abs(s), x, z) {
      assert ColumnWord(s, x)[z] == At(ColumnWord(s, x), z);
      assert At(s[x], z) == Bit(Abs(s), x, 0, z) && At(s[x + 5], z) == Bit(Abs(s), x, 1, z) &&
             At(s[x + 10], z) == Bit(Abs(s), x, 2, z);
      assert At(s[x + 15], z) == Bit(Abs(s), x, 3, z) && At(s[x + 20], z) == Bit(Abs(s), x, 4, z);
    }
  }

  /** What theta changes every lane of column x by. */
  function EffectWord(s: seq<Word>, x: nat): Word
    requires InRange(s) && x < 5
  {
    Xor(ColumnWord(s, (x + 4) % 5), Rotl64(ColumnWord(s, (x + 1) % 5), 1))
  }

  lemma EffectBits(s: seq<Word>, x: nat)
    requires InRange(s) && x < 5
    ensures |EffectWord(s, x)| == 64 && forall z: nat | z < 64 :: EffectWord(s, x)[z] == Effect(Abs(s), x, z)
  {
    hide ColumnWord, Column, Rotl64;
    ColumnBits(s, (x + 4) % 5);
    ColumnBits(s, (x + 1) % 5);
    forall z: nat | z < 64 ensures EffectWord(s, x)[z] == Effect(Abs(s), x, z) {
      RotlBit(ColumnWord(s, (x + 1) % 5), 1, z);
      assert EffectWord(s, x)[z] == At(EffectWord(s, x), z);
      assert At(ColumnWord(s, (x + 4) % 5), z) == Column(Abs(s), (x + 4) % 5, z);
    }
  }

  /** The state after the theta loops, word by word. */
  lemma ThetaWords(s: seq<Word>, t: seq<Word>)
    requires InRange(s) && |t| == 25 && forall i :: 0 <= i < 25 ==> t[i] == Xor(s[i], EffectWord(s, i % 5))
    ensures InRange(t) && Abs(t) == Theta(Abs(s))
  {
    hide EffectWord, Effect;
    forall i | 0 <= i < 25 ensures |t[i]| == 64 { EffectBits(s, i % 5); }
    forall x: nat, y: nat, z: nat | x < 5 && y < 5 && z < 64
      ensures Bit(Abs(t), x, y, z) == Bit(Theta(Abs(s)), x, y, z) {
      var i := x + 5 * y;
      assert i % 5 == x;
      EffectBits(s, x);
      assert t[i][z] == At(t[i], z);
    }
    SameBits(Abs(t), Theta(Abs(s)));
  }

  // ----- rho and pi -----

  /** Where the rotated lane (x, y) goes. */
  function Target(x: nat, y: nat): (i: nat)
    requires x < 5 && y < 5
    ensures i < 25
  {
    y + 5 * ((2 * x + 3 * y) % 5)
  }

  lemma TargetsDiffer(x: nat, y: nat, u: nat, v: nat)
    requires x < 5 && y < 5 && u < 5 && v < 5 && Target(x, y) == Target(u, v)
    ensures x == u && y == v
  {
    var a, b := (2 * x + 3 * y) % 5, (2 * u + 3 * v) % 5;
    assert y - v == 5 * (b - a);
    assert b == a && y == v;
    SameColumn(x, u, y);
  }

  lemma SameColumn(x: nat, u: nat, y: nat)
    requires x < 5 && u < 5 && y < 5 && (2 * x + 3 * y) % 5 == (2 * u + 3 * y) % 5
    ensures x == u
  {
    var p, q := (2 * x + 3 * y) / 5, (2 * u + 3 * y) / 5;
    assert 2 * x + 3 * y == 5 * p + (2 * x + 3 * y) % 5;
    assert 2 * u + 3 * y == 5 * q + (2 * u + 3 * y) % 5;
    assert 2 * (x - u) == 5 * (p - q);
  }

  /** The lane that lands on (x, y) is the one pi takes there. */
  lemma TargetOfSource(x: nat, y: nat)
    requires x < 5 && y < 5
    ensures Target((x + 3 * y) % 5, x) == x + 5 * y
  {
    var u, q := (x + 3 * y) % 5, (x + 3 * y) / 5;
    assert x + 3 * y == 5 * q + u;
    assert 2 * u + 3 * x == 5 * (x + y - 2 * q) + y;
    RestIs(2 * u + 3 * x, x + y - 2 * q, y);
  }

  lemma RestIs(n: int, q: int, r: int)
    requires n == 5 * q + r && 0 <= r < 5
    ensures n % 5 == r
  {
  }

  lemma RhoPiWords(s: seq<Word>, b: seq<Word>)
    requires InRange(s) && |b| == 25
    requires forall x: nat, y: nat | x < 5 && y < 5 :: b[Target(x, y)] == Rotl64(s[x + 5 * y], Offset(x, y))
    ensures InRange(b) && Abs(b) == Pi(Rho(Abs(s)))
  {
    hide Rotl64, Target, Offset;
    forall i | 0 <= i < 25 ensures |b[i]| == 64 {
      var x, y := i % 5, i / 5;
      TargetOfSource(x, y);
      assert b[Target((x + 3 * y) % 5, x)] == Rotl64(s[(x + 3 * y) % 5 + 5 * x], Offset((x + 3 * y) % 5, x));
    }
    forall x: nat, y: nat, z: nat | x < 5 && y < 5 && z < 64
      ensures Bit(Abs(b), x, y, z) == Bit(Pi(Rho(Abs(s))), x, y, z) {
      RhoPiBit(s, b, x, y, z);
    }
    SameBits(Abs(b), Pi(Rho(Abs(s))));
  }

  lemma RhoPiBit(s: seq<Word>, b: seq<Word>, x: nat, y: nat, z: nat)
    requires InRange(s) && InRange(b) && x < 5 && y < 5 && z < 64
    requires forall x: nat, y: nat | x < 5 && y < 5 :: b[Target(x, y)] == Rotl64(s[x + 5 * y], Offset(x, y))
    ensures Bit(Abs(b), x, y, z) == Bit(Pi(Rho(Abs(s))), x, y, z)
  {
    hide Rotl64, Target, Offset, Rho, Pi;
    TargetOfSource(x, y);
    var u := (x + 3 * y) % 5;
    assert b[Target(u, x)] == Rotl64(s[u + 5 * x], Offset(u, x));
    RotlBit(s[u + 5 * x], Offset(u, x), z);
    assert b[x + 5 * y][z] == At(b[x + 5 * y], z);
    PiRhoBit(Abs(s), x, y, z);
  }

  lemma PiRhoBit(a: State, x: nat, y: nat, z: nat)
    requires x < 5 && y < 5 && z < 64
    ensures Bit(Pi(Rho(a)), x, y, z) == Bit(a, (x + 3 * y) % 5, x, (z + 64 - Offset((x + 3 * y) % 5, x)) % 64)
  {
    hide Offset, Pi, Rho;
    PiBit(Rho(a), x, y, z);
    RhoBit(a, (x + 3 * y) % 5, x, z);
  }

  lemma PiBit(a: State, x: nat, y: nat, z: nat)
    requires x < 5 && y < 5 && z < 64
    ensures Bit(Pi(a), x, y, z) == Bit(a, (x + 3 * y) % 5, x, z)
  {
    hide Bit;
  }

  lemma RhoBit(a: State, x: nat, y: nat, z: nat)
    requires x < 5 && y < 5 && z < 64
    ensures Bit(Rho(a), x, y, z) == Bit(a, x, y, (z + 64 - Offset(x, y)) % 64)
  {
    hide Bit, Offset;
  }

  // ----- chi and iota -----

  lemma ChiWords(b: seq<Word>, t: seq<Word>)
    requires InRange(b) && |t| == 25
    requires forall x: nat, y: nat | x < 5 && y < 5 :: t[x + 5 * y] == ChiWord(b, x, y)
    ensures InRange(t) && Abs(t) == Chi(Abs(b))
  {
    forall i | 0 <= i < 25 ensures |t[i]| == 64 {
      var x, y := i % 5, i / 5;
      assert i == x + 5 * y && t[x + 5 * y] == ChiWord(b, x, y);
    }
    forall x: nat, y: nat, z: nat | x < 5 && y < 5 && z < 64 ensures Bit(Abs(t), x, y, z) == Bit(Chi(Abs(b)), x, y, z) {
      assert t[x + 5 * y] == ChiWord(b, x, y);
      assert t[x + 5 * y][z] == At(ChiWord(b, x, y), z);
      ChiBit(b, x, y, z);
    }
    SameBits(Abs(t), Chi(Abs(b)));
  }

  function ChiWord(b: seq<Word>, x: nat, y: nat): Word
    requires InRange(b) && x < 5 && y < 5
  {
    Mask64(Xor(b[x + 5 * y], AndNot(b[(x + 1) % 5 + 5 * y], b[(x + 2) % 5 + 5 * y])))
  }

  lemma ChiBit(b: seq<Word>, x: nat, y: nat, z: nat)
    requires InRange(b) && x < 5 && y < 5 && z < 64
    ensures At(ChiWord(b, x, y), z) == Bit(Chi(Abs(b)), x, y, z)
  {
    hide Chi;
    ChiSpecBit(Abs(b), x, y, z);
    var i, j, k := x + 5 * y, (x + 1) % 5 + 5 * y, (x + 2) % 5 + 5 * y;
    assert At(b[i], z) == b[i][z] && At(b[j], z) == b[j][z] && At(b[k], z) == b[k][z];
    assert At(ChiWord(b, x, y), z) == At(Xor(b[i], AndNot(b[j], b[k])), z);
  }

  lemma ChiSpecBit(a: State, x: nat, y: nat, z: nat)
    requires x < 5 && y < 5 && z < 64
    ensures Bit(Chi(a), x, y, z) == ChiAt(a, x, y, z)
  {
    hide ChiAt;
  }

  /** A round constant: the bits of the integer in the table. */
  function ConstantWord(round: nat): (c: Word)
    requires round < 24
    ensures |c| == 64
  {
    NatBits(ROUND_CONSTANTS[round], 64)
  }

  /** A bit, n zeros, and the rest. */
  function Gap(b: bool, n: nat, s: Word): (r: Word)
    ensures |r| == 1 + n + |s|
  {
    [b] + (Zeros(n) + s)
  }

  /** The seven bits in their places, and zeros between them. */
  function Sparse(b0: bool, b1: bool, b2: bool, b3: bool, b4: bool, b5: bool, b6: bool): (s: Word)
    ensures |s| == 64
  {
    Gap(b0, 0, Gap(b1, 1, Gap(b2, 3, Gap(b3, 7, Gap(b4, 15, Gap(b5, 31, [b6]))))))
  }

  lemma {:induction false} NatOfZeros(n: nat, s: Word)
    ensures NatOf(Zeros(n) + s) == Pow2(n) * NatOf(s)
    decreases n
  {
    if n == 0 {
      assert Zeros(0) + s == s;
    } else {
      NatOfZeros(n - 1, s);
      assert (Zeros(n) + s)[1..] == Zeros(n - 1) + s;
    }
  }

  lemma NatOfShift(n: nat, p: nat, s: Word)
    requires p == Pow2(n)
    ensures NatOf(Zeros(n) + s) == p * NatOf(s)
  {
    hide Pow2, NatOf;
    NatOfZeros(n, s);
  }

  lemma NatOfOne(b: bool, s: Word)
    ensures NatOf([b] + s) == (if b then 1 else 0) + 2 * NatOf(s)
  {
    assert ([b] + s)[1..] == s;
  }

  lemma Powers()
    ensures Pow2(0) == 1 && Pow2(1) == 2 && Pow2(3) == 8 && Pow2(7) == 128 && Pow2(15) == 0x8000 &&
            Pow2(31) == 0x8000_0000
  {
    assert Pow2(5) == 32;
    assert Pow2(9) == 512;
    assert Pow2(11) == 2048;
    assert Pow2(13) == 8192;
    assert Pow2(17) == 0x2_0000;
    assert Pow2(19) == 0x8_0000;
    assert Pow2(21) == 0x20_0000;
    assert Pow2(23) == 0x80_0000;
    assert Pow2(25) == 0x200_0000;
    assert Pow2(27) == 0x800_0000;
    assert Pow2(29) == 0x2000_0000;
  }

  function GapValue(b: bool, p: nat, m: nat): nat {
    (if b then 1 else 0) + 2 * (p * m)
  }

  lemma NatOfGap(b: bool, n: nat, p: nat, s: Word)
    requires p == Pow2(n)
    ensures NatOf(Gap(b, n, s)) == GapValue(b, p, NatOf(s))
  {
    hide Pow2, NatOf, Zeros;
    NatOfShift(n, p, s);
    NatOfOne(b, Zeros(n) + s);
  }

  lemma NatOfBit(b: bool)
    ensures NatOf([b]) == if b then 1 else 0
  {
    assert [b][1..] == [] && NatOf([]) == 0;
  }

  lemma SparseNumber(b0: bool, b1: bool, b2: bool, b3: bool, b4: bool, b5: bool, b6: bool)
    ensures NatOf(Sparse(b0, b1, b2, b3, b4, b5, b6)) == Packed(b0, b1, b2, b3, b4, b5, b6)
  {
    hide NatOf, Pow2, Gap, GapValue, Packed;
    Powers();
    var s5 := Gap(b5, 31, [b6]); var s4 := Gap(b4, 15, s5); var s3 := Gap(b3, 7, s4); var s2 := Gap(b2, 3, s3);
    var s1 := Gap(b1, 1, s2);
    NatOfBit(b6);
    NatOfGap(b5, 31, 0x8000_0000, [b6]);
    NatOfGap(b4, 15, 0x8000, s5);
    NatOfGap(b3, 7, 0x80, s4);
    NatOfGap(b2, 3, 8, s3);
    NatOfGap(b1, 1, 2, s2);
    NatOfGap(b0, 0, 1, s1);
    SparseSum(b0, b1, b2, b3, b4, b5, b6);
  }

  lemma SparseSum(b0: bool, b1: bool, b2: bool, b3: bool, b4: bool, b5: bool, b6: bool)
    ensures var n5 := GapValue(b5, 0x8000_0000, if b6 then 1 else 0);
            GapValue(b0, 1, GapValue(b1, 2, GapValue(b2, 8, GapValue(b3, 0x80, GapValue(b4, 0x8000, n5)))))
            == Packed(b0, b1, b2, b3, b4, b5, b6)
  {
  }

  /** The table's constants have exactly the bits of algorithm 6 of section 3.2.5. */
  lemma ConstantBits(round: nat, z: nat)
    requires round < 24 && z < 64
    ensures ConstantWord(round)[z] == ConstantBit(round, z)
  {
    hide NatBits, NatOf, OutputBit, Packed, ROUND_CONSTANTS;
    var t := 7 * round;
    ConstantsFollowTheRegister(round);
    SparseNumber(OutputBit(t), OutputBit(t + 1), OutputBit(t + 2), OutputBit(t + 3), OutputBit(t + 4),
      OutputBit(t + 5), OutputBit(t + 6));
    NatRoundTrip(Sparse(OutputBit(t), OutputBit(t + 1), OutputBit(t + 2), OutputBit(t + 3), OutputBit(t + 4),
      OutputBit(t + 5), OutputBit(t + 6)));
    SparseBit(OutputBit(t), OutputBit(t + 1), OutputBit(t + 2), OutputBit(t + 3), OutputBit(t + 4), OutputBit(t + 5),
      OutputBit(t + 6), z);
  }

  lemma SparseBit(b0: bool, b1: bool, b2: bool, b3: bool, b4: bool, b5: bool, b6: bool, z: nat)
    requires z < 64
    ensures Sparse(b0, b1, b2, b3, b4, b5, b6)[z] <==>
              (z == 0 && b0) || (z == 1 && b1) || (z == 3 && b2) || (z == 7 && b3) || (z == 15 && b4) ||
                (z == 31 && b5) || (z == 63 && b6)
  {
    hide Gap;
    var s5 := Gap(b5, 31, [b6]); var s4 := Gap(b4, 15, s5); var s3 := Gap(b3, 7, s4); var s2 := Gap(b2, 3, s3);
    var s1 := Gap(b1, 1, s2);
    GapBit(b0, 0, s1, z);
    if z >= 1 { GapBit(b1, 1, s2, z - 1); }
    if z >= 3 { GapBit(b2, 3, s3, z - 3); }
    if z >= 7 { GapBit(b3, 7, s4, z - 7); }
    if z >= 15 { GapBit(b4, 15, s5, z - 15); }
    if z >= 31 { GapBit(b5, 31, [b6], z - 31); }
  }

  lemma GapBit(b: bool, n: nat, s: Word, z: nat)
    requires z < 1 + n + |s|
    ensures Gap(b, n, s)[z] == if z == 0 then b else if z <= n then false else s[z - n - 1]
  {
  }

  lemma IotaWords(s: seq<Word>, round: nat)
    requires InRange(s) && round < 24
    ensures InRange(s[0 := Xor(s[0], ConstantWord(round))]) &&
            Abs(s[0 := Xor(s[0], ConstantWord(round))]) == Iota(Abs(s), round)
  {
    hide ConstantBit, ConstantWord;
    var t := s[0 := Xor(s[0], ConstantWord(round))];
    assert InRange(t);
    forall x: nat, y: nat, z: nat | x < 5 && y < 5 && z < 64
      ensures Bit(Abs(t), x, y, z) == Bit(Iota(Abs(s), round), x, y, z) {
      assert t[x + 5 * y][z] == At(t[x + 5 * y], z);
      if x + 5 * y == 0 {
        ConstantBits(round, z);
        assert At(ConstantWord(round), z) == ConstantBit(round, z) && At(s[0], z) == s[0][z];
      }
    }
    SameBits(Abs(t), Iota(Abs(s), round));
  }

  // ----- the loops -----

  method ThetaInPlace(state: array<Word>)
    requires state.Length == 25 && InRange(state[..])
    modifies state
    ensures InRange(state[..]) && Abs(state[..]) == Theta(Abs(old(state[..])))
  {
    hide EffectWord, Theta, InRange;
    ghost var s := state[..];
    var c := Columns(state);
    var d := Effects(c, s);
    ApplyEffects(state, d, s);
    ThetaWords(s, state[..]);
  }

  method Columns(state: array<Word>) returns (c: array<Word>)
    requires state.Length == 25 && InRange(state[..])
    ensures fresh(c) && c.Length == 5 && forall k :: 0 <= k < 5 ==> c[k] == ColumnWord(state[..], k)
  {
    hide Xor;
    ghost var s := state[..];
    c := new Word[5];
    for x := 0 to 5
      invariant forall k :: 0 <= k < x ==> c[k] == ColumnWord(s, k)
    {
      c[x] := Xor(Xor(Xor(Xor(state[x], state[x + 5]), state[x + 10]), state[x + 15]), state[x + 20]);
    }
  }

  method Effects(c: array<Word>, ghost s: seq<Word>) returns (d: array<Word>)
    requires InRange(s) && c.Length == 5 && forall k :: 0 <= k < 5 ==> c[k] == ColumnWord(s, k)
    ensures fresh(d) && d.Length == 5 && forall k :: 0 <= k < 5 ==> d[k] == EffectWord(s, k)
  {
    hide Xor, Rotl64, ColumnWord, InRange;
    d := new Word[5];
    for x := 0 to 5
      invariant forall k :: 0 <= k < x ==> d[k] == EffectWord(s, k)
    {
      d[x] := Xor(c[(x + 4) % 5], Rotl64(c[(x + 1) % 5], 1));
    }
  }

  method ApplyEffects(state: array<Word>, d: array<Word>, ghost s: seq<Word>)
    requires state.Length == 25 && d.Length == 5 && state != d && state[..] == s && InRange(s)
    requires forall k :: 0 <= k < 5 ==> d[k] == EffectWord(s, k)
    modifies state
    ensures forall i :: 0 <= i < 25 ==> state[i] == Xor(s[i], EffectWord(s, i % 5))
  {
    hide Xor, EffectWord, InRange;
    for y := 0 to 5
      invariant forall i :: 0 <= i < 25 ==> state[i] == if i < 5 * y then Xor(s[i], EffectWord(s, i % 5)) else s[i]
    {
      for x := 0 to 5
        invariant forall i :: 0 <= i < 25 ==>
                  state[i] == if i < x + 5 * y then Xor(s[i], EffectWord(s, i % 5)) else s[i]
      {
        assert (x + 5 * y) % 5 == x;
        state[x + 5 * y] := Xor(state[x + 5 * y], d[x]);
      }
    }
  }

  method RhoPi(state: array<Word>) returns (b: array<Word>)
    requires state.Length == 25 && InRange(state[..])
    ensures fresh(b) && b.Length == 25 && InRange(b[..]) && Abs(b[..]) == Pi(Rho(Abs(state[..])))
  {
    hide Rotl64, Target, Offset, InRange, Pi, Rho;
    ghost var s := state[..];
    b := new Word[25];
    for y := 0 to 5
      invariant forall u: nat, v: nat | u < 5 && v < y :: b[Target(u, v)] == Rotl64(s[u + 5 * v], Offset(u, v))
    {
      for x := 0 to 5
        invariant forall u: nat, v: nat | u < 5 && v < y :: b[Target(u, v)] == Rotl64(s[u + 5 * v], Offset(u, v))
        invariant forall u: nat | u < x :: b[Target(u, y)] == Rotl64(s[u + 5 * y], Offset(u, y))
      {
        forall u: nat, v: nat | u < 5 && v < 5 && Target(u, v) == Target(x, y) ensures u == x && v == y {
          TargetsDiffer(u, v, x, y);
        }
        b[Target(x, y)] := Rotl64(state[x + 5 * y], Offset(x, y));
      }
    }
    RhoPiWords(s, b[..]);
  }

  method ChiInPlace(state: array<Word>, b: array<Word>)
    requires state.Length == 25 && b.Length == 25 && state != b && InRange(b[..])
    modifies state
    ensures InRange(state[..]) && Abs(state[..]) == Chi(Abs(b[..]))
  {
    hide ChiWord, InRange, Chi;
    ghost var s := b[..];
    for y := 0 to 5
      invariant b[..] == s && forall u: nat, v: nat | u < 5 && v < y :: state[u + 5 * v] == ChiWord(s, u, v)
    {
      for x := 0 to 5
        invariant b[..] == s && forall u: nat, v: nat | u < 5 && v < y :: state[u + 5 * v] == ChiWord(s, u, v)
        invariant forall u: nat | u < x :: state[u + 5 * y] == ChiWord(s, u, y)
      {
        state[x + 5 * y] := ChiWord(b[..], x, y);
      }
    }
    ChiWords(s, state[..]);
  }

  /** `_keccak_f1600`. */
  method Permute(state: array<Word>)
    requires state.Length == 25 && InRange(state[..])
    modifies state
    ensures InRange(state[..]) && Abs(state[..]) == Permutation(Abs(old(state[..])))
  {
    hide Theta, Rho, Pi, Chi, Iota, InRange, ConstantWord;
    for round := 0 to 24
      invariant InRange(state[..]) && Abs(state[..]) == Rounds(Abs(old(state[..])), round)
    {
      ThetaInPlace(state);
      var b := RhoPi(state);
      ChiInPlace(state, b);
      IotaWords(state[..], round);
      ghost var before := state[..];
      state[0] := Xor(state[0], ConstantWord(round));
      assert state[..] == before[0 := Xor(before[0], ConstantWord(round))];
    }
  }
}
