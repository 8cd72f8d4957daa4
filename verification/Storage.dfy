/**
 Contract storage as the genesis seeder writes it. Slots are symbolic: a hash stands for its
 preimage, so hashed slots never meet each other or a direct slot.
 */
module Storage {
  import opened Basics

  type Address = nat

  /** The keys of the mappings that are seeded. */
  datatype Key =
    | IndexKey(index: nat)
    | PairKey(padded: seq<Byte>)
    | GemKey(gem: GemId)
    | OwnerKey(owner: Address)
    | OwnerIndexKey(bytes: seq<Byte>, index: nat)

  /** The preimage of a gem id. */
  datatype GemId = GemId(bytes: seq<Byte>, load: nat, index: nat)

  /** Where a slot number comes from: written down, hashed from a mapping key, or hashed from a slot. */
  datatype Root = Zero | Mapping(key: Key, base: nat) | DataOf(slot: Slot)

  datatype Slot = Slot(root: Root, offset: nat)

  function Direct(n: nat): Slot {
    Slot(Zero, n)
  }

  /** `mapping_key`. */
  function Mapped(key: Key, base: nat): Slot {
    Slot(Mapping(key, base), 0)
  }

  /** `data_slot(slot) + i`. */
  function Data(slot: Slot, i: nat): Slot {
    Slot(DataOf(slot), i)
  }

  function After(slot: Slot): Slot {
    slot.(offset := slot.offset + 1)
  }

  datatype Value = Word(n: nat) | Id(gem: GemId)

  type Entries = map<Slot, Value>

  /** `StorageBuilder`. */
  class StorageBuilder {
    var entries: Entries

    constructor ()
      ensures entries == map[]
    {
      entries := map[];
    }

    /** `set_slot`, `set_raw_slot` and `set_mapping`, which differ only in how the slot is named. */
    method Set(slot: Slot, value: Value)
      modifies this
      ensures entries == old(entries)[slot := value]
    {
      entries := entries[slot := value];
    }
  }

  // ----- big-endian words -----

  /** `int.from_bytes(bytes, "big")`. */
  function FromBytes(bytes: seq<Byte>): nat {
    if bytes == [] then 0 else 256 * FromBytes(bytes[..|bytes| - 1]) + bytes[|bytes| - 1]
  }

  /** The last k bytes of a word. */
  function ToBytes(n: nat, k: nat): (bytes: seq<Byte>)
    ensures |bytes| == k
    decreases k
  {
    if k == 0 then [] else ToBytes(n / 256, k - 1) + [n % 256]
  }

  lemma {:induction false} BytesRoundTrip(bytes: seq<Byte>)
    ensures ToBytes(FromBytes(bytes), |bytes|) == bytes
    decreases |bytes|
  {
    if bytes != [] {
      var front, last := bytes[..|bytes| - 1], bytes[|bytes| - 1];
      BytesRoundTrip(front);
      var n := FromBytes(bytes);
      assert n / 256 == FromBytes(front) && n % 256 == last;
      assert bytes == front + [last];
    }
  }

  function Pow256(k: nat): nat {
    if k == 0 then 1 else 256 * Pow256(k - 1)
  }

  lemma {:induction false} FromBytesBound(bytes: seq<Byte>)
    ensures FromBytes(bytes) < Pow256(|bytes|)
    decreases |bytes|
  {
    if bytes != [] { FromBytesBound(bytes[..|bytes| - 1]); }
  }

  lemma {:induction false} PowersIncrease(k: nat, m: nat)
    requires k <= m
    ensures Pow256(k) <= Pow256(m)
    decreases m
  {
    if k < m { PowersIncrease(k, m - 1); }
  }

  /** A number that fits k bytes comes back from them. */
  lemma {:induction false} NumberRoundTrip(n: nat, k: nat)
    requires n < Pow256(k)
    ensures FromBytes(ToBytes(n, k)) == n
    decreases k
  {
    if k > 0 {
      NumberRoundTrip(n / 256, k - 1);
      var bytes := ToBytes(n, k);
      assert bytes[..k - 1] == ToBytes(n / 256, k - 1) && bytes[k - 1] == n % 256;
    }
  }

  // ----- bytes and strings -----

  function ZeroBytes(n: nat): (s: seq<Byte>)
    ensures |s| == n && forall k :: 0 <= k < n ==> s[k] == 0
  {
    seq(n, _ => 0)
  }

  /** A short value and twice its length, in one word. */
  function ShortWord(data: seq<Byte>): nat
    requires |data| <= 31
  {
    FromBytes(data + ZeroBytes(31 - |data|) + [2 * |data|])
  }

  function Chunks(n: nat): (c: nat)
    ensures n <= 32 * c < n + 32
  {
    (n + 31) / 32
  }

  function Chunk(data: seq<Byte>, i: nat): (chunk: seq<Byte>)
    requires i < Chunks(|data|)
    ensures |chunk| <= 32
  {
    if 32 * (i + 1) <= |data| then data[32 * i..32 * (i + 1)] else data[32 * i..]
  }

  /** A chunk of a long value, with zeros behind the last one. */
  function ChunkWord(data: seq<Byte>, i: nat): nat
    requires i < Chunks(|data|)
  {
    FromBytes(Chunk(data, i) + ZeroBytes(32 - |Chunk(data, i)|))
  }

  function WithChunks(e: Entries, base: Slot, data: seq<Byte>, n: nat): Entries
    requires n <= Chunks(|data|)
  {
    if n == 0 then e else WithChunks(e, base, data, n - 1)[Data(base, n - 1) := Word(ChunkWord(data, n - 1))]
  }

  /** What `write_storage_bytes` leaves. */
  function WithBytes(e: Entries, base: Slot, data: seq<Byte>): Entries {
    if |data| <= 31 then e[base := Word(ShortWord(data))]
    else WithChunks(e[base := Word(2 * |data| + 1)], base, data, Chunks(|data|))
  }

  /** `write_storage_bytes`. */
  method WriteStorageBytes(storage: StorageBuilder, base: Slot, data: seq<Byte>)
    modifies storage
    ensures storage.entries == WithBytes(old(storage.entries), base, data)
  {
    hide FromBytes, Chunks, ChunkWord;
    if |data| <= 31 {
      storage.Set(base, Word(ShortWord(data)));
    } else {
      storage.Set(base, Word(2 * |data| + 1));
      WriteChunks(storage, base, data);
    }
  }

  method WriteChunks(storage: StorageBuilder, base: Slot, data: seq<Byte>)
    modifies storage
    ensures storage.entries == WithChunks(old(storage.entries), base, data, Chunks(|data|))
  {
    hide FromBytes, Chunks, Chunk;
    for i := 0 to Chunks(|data|)
      invariant storage.entries == WithChunks(old(storage.entries), base, data, i)
    {
      var chunk := Chunk(data, i);
      storage.Set(Data(base, i), Word(FromBytes(chunk + ZeroBytes(32 - |chunk|))));
    }
  }

  // ----- reading back, in the layout Solidity gives bytes and strings -----

  function WordAt(e: Entries, slot: Slot): nat {
    if slot in e && e[slot].Word? then e[slot].n else 0
  }

  function ReadChunks(e: Entries, base: Slot, n: nat): (s: seq<Byte>)
    ensures |s| == 32 * n
  {
    if n == 0 then [] else ReadChunks(e, base, n - 1) + ToBytes(WordAt(e, Data(base, n - 1)), 32)
  }

  /** An even base word is a short value; an odd one holds twice the length plus one. */
  function ReadBytes(e: Entries, base: Slot): seq<Byte> {
    var word := WordAt(e, base);
    if word % 2 == 0 then ToBytes(word, 32)[..if word % 256 / 2 <= 31 then word % 256 / 2 else 31]
    else
      var length := (word - 1) / 2;
      ReadChunks(e, base, Chunks(length))[..length]
  }

  lemma ShortRoundTrip(e: Entries, base: Slot, data: seq<Byte>)
    requires |data| <= 31
    ensures ShortWord(data) % 2 == 0 && ReadBytes(WithBytes(e, base, data), base) == data
  {
    var bytes := data + ZeroBytes(31 - |data|) + [2 * |data|];
    BytesRoundTrip(bytes);
    var word := ShortWord(data);
    assert bytes[..31] == data + ZeroBytes(31 - |data|);
    assert word == 256 * FromBytes(bytes[..31]) + 2 * |data|;
    assert word % 256 == 2 * |data|;
    assert word % 2 == 0;
    assert bytes[..|data|] == data;
  }

  lemma {:induction false} ChunksWritten(e: Entries, base: Slot, data: seq<Byte>, n: nat, i: nat)
    requires i < n <= Chunks(|data|)
    ensures WordAt(WithChunks(e, base, data, n), Data(base, i)) == ChunkWord(data, i)
    decreases n
  {
    hide ChunkWord, Chunks;
    if i < n - 1 { ChunksWritten(e, base, data, n - 1, i); }
  }

  lemma {:induction false} BaseUntouched(e: Entries, base: Slot, data: seq<Byte>, n: nat, other: Slot)
    requires n <= Chunks(|data|) && other.root != DataOf(base)
    ensures WordAt(WithChunks(e, base, data, n), other) == WordAt(e, other)
    decreases n
  {
    hide ChunkWord, Chunks;
    if n > 0 { BaseUntouched(e, base, data, n - 1, other); }
  }

  /** A chunk's word gives its bytes back, zeros behind them. */
  lemma ChunkReadsBack(data: seq<Byte>, i: nat, k: nat)
    requires i < Chunks(|data|) && k < 32
    ensures ToBytes(ChunkWord(data, i), 32)[k] == if 32 * i + k < |data| then data[32 * i + k] else 0
  {
    hide FromBytes, ToBytes, Chunks;
    var chunk := Chunk(data, i);
    BytesRoundTrip(chunk + ZeroBytes(32 - |chunk|));
  }

  /** The bytes of the first n chunks, padded. */
  lemma {:induction false} ChunksReadBack(e: Entries, base: Slot, data: seq<Byte>, n: nat, k: nat)
    requires n <= Chunks(|data|) && k < 32 * n && forall i :: 0 <= i < n ==>
             WordAt(e, Data(base, i)) == ChunkWord(data, i)
    ensures ReadChunks(e, base, n)[k] == if k < |data| then data[k] else 0
    decreases n
  {
    hide ChunkWord, Chunks, ToBytes, WordAt;
    if k < 32 * (n - 1) {
      ChunksReadBack(e, base, data, n - 1, k);
    } else {
      ChunkReadsBack(data, n - 1, k - 32 * (n - 1));
      assert WordAt(e, Data(base, n - 1)) == ChunkWord(data, n - 1);
    }
  }

  lemma LongRoundTrip(e: Entries, base: Slot, data: seq<Byte>)
    requires |data| > 31
    ensures ReadBytes(WithBytes(e, base, data), base) == data
  {
    hide ChunkWord, Chunks, ReadChunks, WithChunks;
    var n := Chunks(|data|);
    var e1 := e[base := Word(2 * |data| + 1)];
    var f := WithChunks(e1, base, data, n);
    BaseIsNotData(base);
    BaseUntouched(e1, base, data, n, base);
    assert WordAt(f, base) == 2 * |data| + 1;
    forall i | 0 <= i < n ensures WordAt(f, Data(base, i)) == ChunkWord(data, i) {
      ChunksWritten(e1, base, data, n, i);
    }
    forall k | 0 <= k < |data| ensures ReadChunks(f, base, n)[k] == data[k] { ChunksReadBack(f, base, data, n, k); }
    assert ReadChunks(f, base, n)[..|data|] == data;
  }

  function Depth(slot: Slot): nat {
    if slot.root.DataOf? then 1 + Depth(slot.root.slot) else 0
  }

  /** No slot is hashed from itself. */
  lemma BaseIsNotData(base: Slot)
    ensures base.root != DataOf(base)
  {
    assert base.root.DataOf? ==> Depth(base) == 1 + Depth(base.root.slot);
  }

  /** Byte strings of every length come back exactly, and the low bit of the base word tells the two forms apart. */
  lemma BytesComeBack(e: Entries, base: Slot, data: seq<Byte>)
    ensures ReadBytes(WithBytes(e, base, data), base) == data
    ensures WordAt(WithBytes(e, base, data), base) % 2 == 0 <==> |data| <= 31
  {
    if |data| <= 31 {
      ShortRoundTrip(e, base, data);
    } else {
      LongRoundTrip(e, base, data);
      BaseIsNotData(base);
      BaseUntouched(e[base := Word(2 * |data| + 1)], base, data, Chunks(|data|), base);
    }
  }

  /** The last word of a long value ends in zeros. */
  lemma LastChunkIsPadded(data: seq<Byte>, k: nat)
    requires |data| > 31 && k < 32 && 32 * (Chunks(|data|) - 1) + k >= |data|
    ensures ToBytes(ChunkWord(data, Chunks(|data|) - 1), 32)[k] == 0
  {
    hide ToBytes, ChunkWord, Chunks;
    ChunkReadsBack(data, Chunks(|data|) - 1, k);
  }

  /** Nothing else changes. */
  lemma OthersUntouched(e: Entries, base: Slot, data: seq<Byte>, other: Slot)
    requires other != base && other.root != DataOf(base)
    ensures WordAt(WithBytes(e, base, data), other) == WordAt(e, other)
  {
    if |data| > 31 { BaseUntouched(e[base := Word(2 * |data| + 1)], base, data, Chunks(|data|), other); }
  }
}
