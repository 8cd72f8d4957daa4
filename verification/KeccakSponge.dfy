/** The seeder's Keccak-256 over bytes: padding, absorbing block by block, squeezing. */
module KeccakSponge {
  import opened Basics
  import opened Binary
  import opened KeccakSpec
  import opened Keccak

  const RATE_BYTES: nat := 136

  // ----- bytes and bits -----

  lemma Pow2Of8()
    ensures Pow2(8) == 256
  {
    assert Pow2(3) == 8;
    assert Pow2(6) == 64;
  }

  function ByteBits(b: Byte): seq<bool> {
    NatBits(b, 8)
  }

  function ByteOf(s: seq<bool>): Byte
    requires |s| == 8
  {
    NatBound(s);
    Pow2Of8();
    NatOf(s)
  }

  function Bits(data: seq<Byte>): (s: seq<bool>)
    ensures |s| == 8 * |data|
  {
    if data == [] then [] else ByteBits(data[0]) + Bits(data[1..])
  }

  lemma {:induction false} BitsAppend(a: seq<Byte>, b: seq<Byte>)
    ensures Bits(a + b) == Bits(a) + Bits(b)
    decreases |a|
  {
    if a == [] {
      assert a + b == b;
    } else {
      assert (a + b)[1..] == a[1..] + b;
      BitsAppend(a[1..], b);
    }
  }

  /** `int.from_bytes(data[i:i + n], "little")` is the matching part of the bits. */
  lemma BitsSlice(data: seq<Byte>, i: nat, j: nat)
    requires i <= j <= |data|
    ensures Bits(data)[8 * i..8 * j] == Bits(data[i..j])
  {
    hide Bits;
    var a, b, c := Bits(data[..i]), Bits(data[i..j]), Bits(data[j..]);
    BitsThirds(data, i, j);
    MiddlePart(a, b, c);
    assert |a| == 8 * i && |a| + |b| == 8 * j;
  }

  lemma BitsThirds(data: seq<Byte>, i: nat, j: nat)
    requires i <= j <= |data|
    ensures Bits(data) == Bits(data[..i]) + (Bits(data[i..j]) + Bits(data[j..]))
  {
    hide Bits;
    BitsHalves(data, i);
    BitsHalves(data[i..], j - i);
    SliceOfSlice(data, i, j);
  }

  lemma SliceOfSlice<T>(s: seq<T>, i: nat, j: nat)
    requires i <= j <= |s|
    ensures s[i..][..j - i] == s[i..j] && s[i..][j - i..] == s[j..]
  {
  }

  lemma BitsHalves(data: seq<Byte>, i: nat)
    requires i <= |data|
    ensures Bits(data) == Bits(data[..i]) + Bits(data[i..])
  {
    hide Bits;
    assert data == data[..i] + data[i..];
    BitsAppend(data[..i], data[i..]);
  }

  lemma MiddlePart(a: seq<bool>, b: seq<bool>, c: seq<bool>)
    ensures (a + (b + c))[|a|..|a| + |b|] == b
  {
  }

  /** `lane.to_bytes(8, "little")`. */
  function WordBytes(w: seq<bool>): (d: seq<Byte>)
    requires |w| == 64
    ensures |d| == 8
  {
    [ByteOf(w[0..8]), ByteOf(w[8..16]), ByteOf(w[16..24]), ByteOf(w[24..32]), ByteOf(w[32..40]), ByteOf(w[40..48]),
      ByteOf(w[48..56]), ByteOf(w[56..64])]
  }

  // ----- padding -----

  function PadLength(n: nat): nat {
    RATE_BYTES - n % RATE_BYTES
  }

  function ZeroBytes(n: nat): (s: seq<Byte>)
    ensures |s| == n && forall k :: 0 <= k < n ==> s[k] == 0
  {
    seq(n, _ => 0)
  }

  /** The bytes appended to a message of n bytes. */
  function PadBytes(n: nat): seq<Byte> {
    if PadLength(n) == 1 then [0x81] else [0x01] + ZeroBytes(PadLength(n) - 2) + [0x80]
  }

  lemma {:induction false} ZeroBits(n: nat)
    ensures Bits(ZeroBytes(n)) == Zeros(8 * n)
    decreases n
  {
    if n > 0 {
      assert ZeroBytes(n)[1..] == ZeroBytes(n - 1);
      ZeroBits(n - 1);
      EdgeBytes();
      assert Zeros(8) + Zeros(8 * (n - 1)) == Zeros(8 * n);
    }
  }

  lemma OneByte(b: Byte)
    ensures Bits([b]) == ByteBits(b)
  {
    assert [b][1..] == [];
    assert Bits([]) == [];
    assert ByteBits(b) + [] == ByteBits(b);
  }

  lemma {:induction false} ShiftedBits(n: nat, s: nat, k: nat)
    ensures NatBits(n * Pow2(s), s + k) == Zeros(s) + NatBits(n, k)
    decreases s
  {
    if s == 0 {
      assert n * Pow2(0) == n && Zeros(0) + NatBits(n, k) == NatBits(n, k);
    } else {
      var m := n * Pow2(s - 1);
      assert n * Pow2(s) == 2 * m;
      ShiftedBits(n, s - 1, k);
      assert Zeros(s) == [false] + Zeros(s - 1);
    }
  }

  lemma EdgeBytes()
    ensures ByteBits(0x81) == [true] + Zeros(6) + [true]
    ensures ByteBits(0x01) == [true] + Zeros(7)
    ensures ByteBits(0x80) == Zeros(7) + [true]
    ensures ByteBits(0) == Zeros(8)
  {
    SmallPowers();
    ShiftedBits(1, 7, 1);
    ShiftedBits(1, 6, 1);
    ShiftedBits(0, 7, 0);
    ShiftedBits(0, 8, 0);
    hide Pow2;
    assert NatBits(1, 1) == [true] && NatBits(0, 0) == [];
    assert NatBits(0x81, 8) == [true] + NatBits(0x40, 7);
    assert NatBits(1, 8) == [true] + NatBits(0, 7);
  }

  lemma SmallPowers()
    ensures Pow2(6) == 64 && Pow2(7) == 128
  {
    assert Pow2(3) == 8;
  }

  /** How many zeros lie between the two ones. */
  lemma PadZeros(n: nat)
    ensures 1 <= PadLength(n) && (2 * RATE - 2 - (8 * n) % RATE) % RATE == 8 * PadLength(n) - 2
  {
    var q, r := n / RATE_BYTES, n % RATE_BYTES;
    assert 8 * n == RATE * q + 8 * r;
    assert (8 * n) % RATE == 8 * r;
    if r == RATE_BYTES - 1 {
      assert 2 * RATE - 2 - 8 * r == RATE + 6;
    } else {
      assert 2 * RATE - 2 - 8 * r == RATE + (RATE - 2 - 8 * r);
    }
  }

  /** On bits, the appended bytes are exactly pad10*1, including the one-byte case. */
  lemma PadIsPad10Star1(n: nat)
    ensures Bits(PadBytes(n)) == Pad(8 * n)
  {
    hide ByteBits, Bits, PadLength;
    EdgeBytes();
    var p := PadLength(n);
    PadZeros(n);
    if p == 1 {
      OneByte(0x81);
    } else {
      OneByte(0x01);
      OneByte(0x80);
      ZeroBits(p - 2);
      BitsAppend([0x01] + ZeroBytes(p - 2), [0x80]);
      BitsAppend([0x01], ZeroBytes(p - 2));
      assert Zeros(7) + Zeros(8 * (p - 2)) + Zeros(7) == Zeros(8 * p - 2);
    }
  }

  /** The padded message is never empty and fills whole blocks. */
  lemma PaddedLength(data: seq<Byte>)
    ensures |PadBytes(|data|)| == PadLength(|data|) && 1 <= PadLength(|data|) <= RATE_BYTES
    ensures |data + PadBytes(|data|)| % RATE_BYTES == 0
  {
  }

  /** Remove zero bytes from the end. */
  function DropZeros(s: seq<Byte>): seq<Byte> {
    if s != [] && s[|s| - 1] == 0 then DropZeros(s[..|s| - 1]) else s
  }

  /** The message in front of its padding. */
  function Unpad(padded: seq<Byte>): Option<seq<Byte>> {
    if padded == [] then None
    else if padded[|padded| - 1] == 0x81 then Some(padded[..|padded| - 1])
    else if padded[|padded| - 1] != 0x80 then None
    else
      var front := DropZeros(padded[..|padded| - 1]);
      if front == [] || front[|front| - 1] != 0x01 then None else Some(front[..|front| - 1])
  }

  lemma {:induction false} DropZerosAppend(s: seq<Byte>, n: nat)
    requires s != [] && s[|s| - 1] != 0
    ensures DropZeros(s + ZeroBytes(n)) == s
    decreases n
  {
    if n == 0 {
      assert s + ZeroBytes(0) == s;
    } else {
      assert (s + ZeroBytes(n))[..|s| + n - 1] == s + ZeroBytes(n - 1);
      DropZerosAppend(s, n - 1);
    }
  }

  /** Padding is invertible for every message, so no two messages share a padded form. */
  lemma PadRoundTrip(data: seq<Byte>)
    ensures Unpad(data + PadBytes(|data|)) == Some(data)
  {
    hide PadLength, ZeroBytes, DropZeros;
    PadZeros(|data|);
    var p := PadLength(|data|);
    var padded := data + PadBytes(|data|);
    if p == 1 {
      assert padded[..|padded| - 1] == data;
    } else {
      assert padded[..|padded| - 1] == (data + [0x01]) + ZeroBytes(p - 2);
      DropZerosAppend(data + [0x01], p - 2);
      assert (data + [0x01])[..|data|] == data;
    }
  }

  lemma PadIsInjective(a: seq<Byte>, b: seq<Byte>)
    requires a + PadBytes(|a|) == b + PadBytes(|b|)
    ensures a == b
  {
    PadRoundTrip(a);
    PadRoundTrip(b);
  }

  // ----- the sponge -----

  lemma WordRoundTrip(w: seq<bool>)
    requires |w| == 64
    ensures Bits(WordBytes(w)) == w
  {
    hide Bits, ByteOf;
    forall k: nat | k < 8 ensures ByteBits(WordBytes(w)[k]) == w[8 * k..8 * k + 8] {
      ByteComesBack(w[8 * k..8 * k + 8]);
      assert WordBytes(w)[k] == ByteOf(w[8 * k..8 * k + 8]);
    }
    BitsOfEighths(WordBytes(w), w);
  }

  lemma ByteComesBack(s: seq<bool>)
    requires |s| == 8
    ensures ByteBits(ByteOf(s)) == s
  {
    NatRoundTrip(s);
  }

  /** Bytes whose bits are the eighths of a word in order give back the word. */
  lemma {:induction false} BitsOfEighths(d: seq<Byte>, w: seq<bool>)
    requires |w| == 8 * |d|
    requires forall k: nat | k < |d| :: ByteBits(d[k]) == w[8 * k..8 * k + 8]
    ensures Bits(d) == w
    decreases |d|
  {
    hide ByteBits;
    if d != [] {
      forall k: nat | k < |d[1..]| ensures ByteBits(d[1..][k]) == w[8..][8 * k..8 * k + 8] {
        assert d[1..][k] == d[k + 1];
      }
      BitsOfEighths(d[1..], w[8..]);
      assert ByteBits(d[0]) == w[0..8];
      assert w == w[..8] + w[8..];
    }
  }

  /** A block's bytes, eight to a lane, are its bits in order. */
  lemma BlockBits(block: seq<Byte>, i: nat, z: nat)
    requires |block| == RATE_BYTES && i < 25 && z < 64
    ensures BlockBit(Bits(block), 64 * i + z) == (i < 17 && Bits(block[8 * i..8 * i + 8])[z])
  {
    hide Bits;
    if i < 17 {
      BitsSlice(block, 8 * i, 8 * i + 8);
      assert Bits(block)[64 * i + z] == Bits(block)[64 * i..64 * i + 64][z];
    }
  }

  /** The state after the lane loop over one block. */
  predicate Added(s: seq<Word>, t: seq<Word>, block: seq<Byte>, lanes: nat)
    requires InRange(s) && |block| == RATE_BYTES && lanes <= 17
  {
    |t| == 25 && forall i :: 0 <= i < 25 ==>
      t[i] == if i < lanes then Xor(s[i], Bits(block[8 * i..8 * i + 8])) else s[i]
  }

  lemma AddedWords(s: seq<Word>, t: seq<Word>, block: seq<Byte>)
    requires InRange(s) && |block| == RATE_BYTES && Added(s, t, block, 17)
    ensures InRange(t) && Abs(t) == AddBlock(Abs(s), Bits(block))
  {
    hide Bits, BlockBit;
    assert InRange(t);
    forall x: nat, y: nat, z: nat | x < 5 && y < 5 && z < 64
      ensures Bit(Abs(t), x, y, z) == Bit(AddBlock(Abs(s), Bits(block)), x, y, z) {
      AddedBit(s, t, block, x, y, z);
    }
    hide AddBlock;
    SameBits(Abs(t), AddBlock(Abs(s), Bits(block)));
  }

  lemma AddedBit(s: seq<Word>, t: seq<Word>, block: seq<Byte>, x: nat, y: nat, z: nat)
    requires InRange(s) && InRange(t) && |block| == RATE_BYTES && Added(s, t, block, 17) && x < 5 && y < 5 && z < 64
    ensures Bit(Abs(t), x, y, z) == Bit(AddBlock(Abs(s), Bits(block)), x, y, z)
  {
    hide Bits, BlockBit, AddBlock, Added, Plus;
    var i := x + 5 * y;
    BlockBits(block, i, z);
    AddedWordBit(s, t, block, i, z);
    AddBlockBit(Abs(s), Bits(block), x, y, z);
  }

  lemma AddedWordBit(s: seq<Word>, t: seq<Word>, block: seq<Byte>, i: nat, z: nat)
    requires InRange(s) && InRange(t) && |block| == RATE_BYTES && Added(s, t, block, 17) && i < 25 && z < 64
    ensures t[i][z] == Plus(s[i][z], i < 17 && Bits(block[8 * i..8 * i + 8])[z])
  {
    hide Bits, Xor;
    assert t[i][z] == At(t[i], z) && At(s[i], z) == s[i][z];
    if i < 17 { assert At(Bits(block[8 * i..8 * i + 8]), z) == Bits(block[8 * i..8 * i + 8])[z]; }
  }

  lemma AddBlockBit(a: State, block: seq<bool>, x: nat, y: nat, z: nat)
    requires x < 5 && y < 5 && z < 64
    ensures Bit(AddBlock(a, block), x, y, z) == Plus(Bit(a, x, y, z), BlockBit(block, 64 * (x + 5 * y) + z))
  {
    hide BlockBit;
  }

  /** Add one block to the state, lane by lane. */
  method AddBlockInPlace(state: array<Word>, block: seq<Byte>)
    requires state.Length == 25 && InRange(state[..]) && |block| == RATE_BYTES
    modifies state
    ensures InRange(state[..]) && Abs(state[..]) == AddBlock(Abs(old(state[..])), Bits(block))
  {
    hide Bits, Xor, AddBlock;
    ghost var s := state[..];
    for lane := 0 to 17
      invariant Added(s, state[..], block, lane)
    {
      state[lane] := Xor(state[lane], Bits(block[8 * lane..8 * lane + 8]));
    }
    AddedWords(s, state[..], block);
  }

  /** One step of absorbing, on bytes. */
  lemma AbsorbStep(a: State, data: seq<Byte>)
    requires |data| % RATE_BYTES == 0 && |data| >= RATE_BYTES
    ensures |Bits(data)| % RATE == 0 && |data[RATE_BYTES..]| % RATE_BYTES == 0 && |Bits(data[RATE_BYTES..])| % RATE == 0
    ensures Absorb(a, Bits(data)) ==
            Absorb(Permutation(AddBlock(a, Bits(data[..RATE_BYTES]))), Bits(data[RATE_BYTES..]))
  {
    hide Bits, Permutation, AddBlock;
    BlocksOfBytes(data);
    BlocksOfBytes(data[RATE_BYTES..]);
    BitsHalves(data, RATE_BYTES);
    var first, rest := Bits(data[..RATE_BYTES]), Bits(data[RATE_BYTES..]);
    assert Bits(data)[..RATE] == first && Bits(data)[RATE..] == rest;
  }

  lemma BlocksOfBytes(data: seq<Byte>)
    requires |data| % RATE_BYTES == 0
    ensures |Bits(data)| % RATE == 0
  {
    var n := |data| / RATE_BYTES;
    assert |Bits(data)| == RATE * n;
  }

  /** `_pure_python_keccak256`: the digest's bits are what the sponge squeezes from the message's bits. */
  method Keccak256(data: seq<Byte>) returns (digest: seq<Byte>)
    ensures |digest| == 32 && Bits(digest) == Digest(Bits(data))
  {
    hide Bits, Permutation, AddBlock, Pad, Absorb, InRange, PadLength;
    var state := ZeroState();
    PaddedLength(data);
    PadIsPad10Star1(|data|);
    BitsAppend(data, PadBytes(|data|));
    var padded := data + PadBytes(|data|);
    BlocksOfBytes(padded);
    var offset := 0;
    while offset < |padded|
      invariant offset <= |padded| && offset % RATE_BYTES == 0
      invariant InRange(state[..]) && |Bits(padded[offset..])| % RATE == 0
      invariant Absorb(Abs(state[..]), Bits(padded[offset..])) == Absorbed(Bits(data))
    {
      ghost var rest := padded[offset..];
      ghost var a := Abs(state[..]);
      RestLength(|padded|, offset);
      AbsorbStep(a, rest);
      assert rest[..RATE_BYTES] == padded[offset..offset + RATE_BYTES];
      assert rest[RATE_BYTES..] == padded[offset + RATE_BYTES..];
      AddBlockInPlace(state, padded[offset..offset + RATE_BYTES]);
      Permute(state);
      offset := offset + RATE_BYTES;
    }
    AbsorbNothing(Abs(state[..]), padded[offset..]);
    digest := Squeeze(state);
  }

  lemma RestLength(n: nat, offset: nat)
    requires offset < n && n % RATE_BYTES == 0 && offset % RATE_BYTES == 0
    ensures (n - offset) % RATE_BYTES == 0 && n - offset >= RATE_BYTES && (offset + RATE_BYTES) % RATE_BYTES == 0
  {
  }

  lemma AbsorbNothing(a: State, data: seq<Byte>)
    requires data == []
    ensures |Bits(data)| % RATE == 0 && Absorb(a, Bits(data)) == a
  {
  }

  method ZeroState() returns (state: array<Word>)
    ensures fresh(state) && state.Length == 25 && InRange(state[..]) && Abs(state[..]) == Blank()
  {
    state := new Word[25](_ => Zeros(64));
    assert InRange(state[..]);
    SameBits(Abs(state[..]), Blank());
  }

  /** The lanes' bytes one after the other, cut to 32. */
  method Squeeze(state: array<Word>) returns (digest: seq<Byte>)
    requires state.Length == 25 && InRange(state[..])
    ensures |digest| == 32 && Bits(digest) == Squeezed(Abs(state[..]))
  {
    var bytes: seq<Byte> := [];
    for lane := 0 to 25
      invariant |bytes| == 8 * lane
      invariant forall k :: 0 <= k < lane ==> bytes[8 * k..8 * k + 8] == WordBytes(state[k])
    {
      ghost var before := bytes;
      bytes := bytes + WordBytes(state[lane]);
      forall k | 0 <= k < lane ensures bytes[8 * k..8 * k + 8] == before[8 * k..8 * k + 8] {}
      assert bytes[8 * lane..8 * lane + 8] == WordBytes(state[lane]);
    }
    digest := bytes[..32];
    SqueezedBytes(state[..], digest);
  }

  lemma SqueezedBytes(s: seq<Word>, digest: seq<Byte>)
    requires InRange(s) && |digest| == 32
    requires digest[0..8] == WordBytes(s[0]) && digest[8..16] == WordBytes(s[1]) &&
             digest[16..24] == WordBytes(s[2]) && digest[24..32] == WordBytes(s[3])
    ensures Bits(digest) == Squeezed(Abs(s))
  {
    hide Bits, WordBytes;
    WordRoundTrip(s[0]);
    WordRoundTrip(s[1]);
    WordRoundTrip(s[2]);
    WordRoundTrip(s[3]);
    BitsHalves(digest, 24);
    BitsHalves(digest[..24], 16);
    BitsHalves(digest[..16], 8);
    assert digest[..24][..16] == digest[..16] && digest[..24][16..] == digest[16..24];
    assert digest[..16][..8] == digest[0..8] && digest[..16][8..] == digest[8..16];
    assert digest[24..] == digest[24..32];
  }
}
