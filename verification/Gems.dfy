/** Genesis gems: one record each, a global list with its index, and per-owner lists with their counts. */
module Gems {
  import opened Basics
  import opened HexText
  import opened Storage

  const SETTLED: nat := 3

  /** A configured gem; `other` gives the record words that neither owner, load nor state determine. */
  datatype Gem = Gem(owner: string, load: nat, state: nat, other: nat -> nat)

  // ----- owners are spelled -----

  /** `address_bytes` on a lower-case spelling; `None` where it is refused. */
  function BytesOf(spelling: string): Option<seq<Byte>> {
    if |WithoutPrefix(spelling)| != 40 then None else Pairs(WithoutPrefix(spelling))
  }

  /** The address a lower-case spelling names, once its bytes are padded on the left. */
  function NamedBy(spelling: string): Option<Address> {
    if BytesOf(spelling).None? then None else Some(FromBytes(BytesOf(spelling).value))
  }

  function AddressOf(owner: string): Option<Address> {
    NamedBy(Lower(owner))
  }

  /** The owner is read twice: to bytes, and as a number. */
  predicate GemOk(g: Gem) {
    g.state == SETTLED && AddressOf(g.owner).Some? && IntOf(g.owner).Some?
  }

  predicate AllOk(gems: seq<Gem>) {
    forall i :: 0 <= i < |gems| ==> GemOk(gems[i])
  }

  function OwnerAt(gems: seq<Gem>, i: nat): Address
    requires AllOk(gems) && i < |gems|
  {
    AddressOf(gems[i].owner).value
  }

  function BytesAt(gems: seq<Gem>, i: nat): seq<Byte>
    requires AllOk(gems) && i < |gems|
  {
    BytesOf(SpellingAt(gems, i)).value
  }

  function SpellingAt(gems: seq<Gem>, i: nat): string
    requires i < |gems|
  {
    Lower(gems[i].owner)
  }

  /** `gem_id_gen`: the id hashes owner, load and position. */
  function IdAt(gems: seq<Gem>, i: nat): GemId
    requires AllOk(gems) && i < |gems|
  {
    GemId(BytesAt(gems, i), gems[i].load, i)
  }

  // ----- what is written -----

  function RecordWord(g: Gem, j: nat): nat
    requires GemOk(g)
  {
    if j == 1 then IntOf(g.owner).value else if j == 3 then g.load else if j == 8 then g.state else g.other(j)
  }

  /** The first n record slots of a gem. */
  function WithRecord(e: Entries, g: Gem, id: GemId, n: nat): Entries
    requires GemOk(g)
  {
    if n == 0 then e else WithRecord(e, g, id, n - 1)[Mapped(GemKey(id), n) := Word(RecordWord(g, n))]
  }

  /** The storage and the seeder's dictionary of counts, with its keys in insertion order. */
  datatype Progress = Progress(entries: Entries, counts: map<string, nat>, order: seq<string>)

  function Count(p: Progress, spelling: string): nat {
    if spelling in p.counts then p.counts[spelling] else 0
  }

  /** The slot of `gem_owner_index_key`, which hashes the owner's bytes as they were read. */
  function IndexSlot(owner: seq<Byte>, k: nat): Slot {
    Mapped(OwnerIndexKey(owner, k), 19)
  }

  /** Where the contract looks for an owner's gem: under the 20 bytes of its address. */
  function OwnerSlot(owner: Address, k: nat): Slot {
    IndexSlot(ToBytes(owner, 20), k)
  }

  function ListSlot(i: nat): Slot {
    Data(Direct(20), i)
  }

  function PositionSlot(id: GemId): Slot {
    Mapped(GemKey(id), 21)
  }

  function CountSlot(owner: Address): Slot {
    Mapped(OwnerKey(owner), 18)
  }

  function AddGem(p: Progress, g: Gem, i: nat): Progress
    requires GemOk(g)
  {
    var spelling := Lower(g.owner);
    var bytes := BytesOf(spelling).value;
    var id := GemId(bytes, g.load, i);
    var k := Count(p, spelling);
    var recorded := WithRecord(p.entries, g, id, 17);
    Progress(
      recorded[IndexSlot(bytes, k) := Id(id)][ListSlot(i) := Id(id)][PositionSlot(id) := Word(i)],
      p.counts[spelling := k + 1],
      if spelling in p.counts then p.order else p.order + [spelling])
  }

  function AddGems(e: Entries, gems: seq<Gem>, n: nat): Progress
    requires AllOk(gems) && n <= |gems|
  {
    if n == 0 then Progress(e, map[], []) else AddGem(AddGems(e, gems, n - 1), gems[n - 1], n - 1)
  }

  predicate Spellings(order: seq<string>) {
    forall k :: 0 <= k < |order| ==> NamedBy(order[k]).Some?
  }

  function WithCounts(p: Progress, n: nat): Entries
    requires Spellings(p.order) && n <= |p.order|
  {
    if n == 0 then p.entries
      else WithCounts(p, n - 1)[CountSlot(NamedBy(p.order[n - 1]).value) := Word(Count(p, p.order[n - 1]))]
  }

  /** The storage after `seed_gems`. */
  function Seeded(e: Entries, gems: seq<Gem>): Entries
    requires AllOk(gems)
  {
    var p := AddGems(e, gems, |gems|);
    OrderNames(e, gems, |gems|);
    WithCounts(p, |p.order|)[Direct(0) := Word(|gems|)][Direct(20) := Word(|gems|)]
  }

  lemma {:induction false} OrderNames(e: Entries, gems: seq<Gem>, n: nat)
    requires AllOk(gems) && n <= |gems|
    ensures Spellings(AddGems(e, gems, n).order)
    decreases n
  {
    hide BytesOf, WithRecord, Lower, IntOf;
    if n > 0 {
      OrderNames(e, gems, n - 1);
      assert GemOk(gems[n - 1]);
    }
  }

  /** `seed_gems`. */
  method SeedGems(storage: StorageBuilder, gems: seq<Gem>) returns (ok: bool)
    modifies storage
    ensures ok == AllOk(gems)
    ensures ok ==> storage.entries == Seeded(old(storage.entries), gems)
  {
    hide AddGem, GemOk, WithCounts;
    var counts: map<string, nat> := map[];
    var order: seq<string> := [];
    for i := 0 to |gems|
      invariant AllOk(gems[..i]) &&
                Progress(storage.entries, counts, order) == AddGems(old(storage.entries), gems[..i], i)
    {
      if !GemOk(gems[i]) { return false; }
      OkPrefix(gems, i);
      PrefixProgress(old(storage.entries), gems[..i], gems[..i + 1], i);
      counts, order := AddOneGem(storage, counts, order, gems[i], i);
    }
    assert gems[..|gems|] == gems;
    ghost var p := AddGems(old(storage.entries), gems, |gems|);
    OrderNames(old(storage.entries), gems, |gems|);
    WriteCounts(storage, counts, order);
    storage.Set(Direct(0), Word(|gems|));
    storage.Set(Direct(20), Word(|gems|));
    return true;
  }

  lemma OkPrefix(gems: seq<Gem>, i: nat)
    requires i < |gems| && AllOk(gems[..i]) && GemOk(gems[i])
    ensures AllOk(gems[..i + 1]) && gems[..i + 1][i] == gems[i] && gems[..i] == gems[..i + 1][..i]
  {
    hide GemOk;
    var longer := gems[..i + 1];
    forall k | 0 <= k < |longer| ensures GemOk(longer[k]) {
      if k < i { assert longer[k] == gems[..i][k]; }
    }
  }

  method AddOneGem(storage: StorageBuilder, before: map<string, nat>, seen: seq<string>, g: Gem, i: nat)
    returns (counts: map<string, nat>, order: seq<string>)
    requires GemOk(g)
    modifies storage
    ensures Progress(storage.entries, counts, order) == AddGem(Progress(old(storage.entries), before, seen), g, i)
  {
    hide Lower, BytesOf, WithRecord;
    counts, order := before, seen;
    var spelling := Lower(g.owner);
    var bytes := BytesOf(spelling).value;
    var id := GemId(bytes, g.load, i);
    WriteRecord(storage, g, id);
    var k := if spelling in counts then counts[spelling] else 0;
    storage.Set(IndexSlot(bytes, k), Id(id));
    if spelling !in counts { order := order + [spelling]; }
    counts := counts[spelling := k + 1];
    storage.Set(ListSlot(i), Id(id));
    storage.Set(PositionSlot(id), Word(i));
  }

  method WriteCounts(storage: StorageBuilder, counts: map<string, nat>, order: seq<string>)
    requires Spellings(order)
    modifies storage
    ensures storage.entries == WithCounts(Progress(old(storage.entries), counts, order), |order|)
  {
    hide NamedBy;
    ghost var p := Progress(storage.entries, counts, order);
    for n := 0 to |order|
      invariant storage.entries == WithCounts(p, n)
    {
      storage.Set(CountSlot(OrderAddress(order, n)), Word(if order[n] in counts then counts[order[n]] else 0));
    }
  }

  function OrderAddress(order: seq<string>, n: nat): (a: Address)
    requires Spellings(order) && n < |order|
    ensures NamedBy(order[n]) == Some(a)
  {
    NamedBy(order[n]).value
  }

  method WriteRecord(storage: StorageBuilder, g: Gem, id: GemId)
    requires GemOk(g)
    modifies storage
    ensures storage.entries == WithRecord(old(storage.entries), g, id, 17)
  {
    for j := 0 to 17
      invariant storage.entries == WithRecord(old(storage.entries), g, id, j)
    {
      storage.Set(Mapped(GemKey(id), j + 1), Word(RecordWord(g, j + 1)));
    }
  }

  lemma {:induction false} PrefixProgress(e: Entries, short: seq<Gem>, long: seq<Gem>, n: nat)
    requires AllOk(short) && AllOk(long) && n <= |short| <= |long| && short == long[..|short|]
    ensures AddGems(e, short, n) == AddGems(e, long, n)
    decreases n
  {
    hide AddGem, GemOk;
    if n > 0 { PrefixProgress(e, short, long, n - 1); }
  }

  // ----- counting -----

  /** The positions below n of an owner's gems, in order. */
  function Mine(gems: seq<Gem>, owner: Address, n: nat): seq<nat>
    requires AllOk(gems) && n <= |gems|
  {
    if n == 0 then [] else Mine(gems, owner, n - 1) + if OwnerAt(gems, n - 1) == owner then [n - 1] else []
  }

  /** How many gems below n use a spelling. */
  function Spelled(gems: seq<Gem>, spelling: string, n: nat): nat
    requires n <= |gems|
  {
    if n == 0 then 0 else Spelled(gems, spelling, n - 1) + if SpellingAt(gems, n - 1) == spelling then 1 else 0
  }

  /** The dictionary counts spellings; its keys are the spellings seen, each once. */
  lemma {:induction false} CountsSpellings(e: Entries, gems: seq<Gem>, n: nat, spelling: string)
    requires AllOk(gems) && n <= |gems|
    ensures var p := AddGems(e, gems, n);
            && Count(p, spelling) == Spelled(gems, spelling, n)
            && (spelling in p.counts <==> Spelled(gems, spelling, n) > 0)
            && (spelling in p.order <==> spelling in p.counts)
    decreases n
  {
    hide NamedBy, BytesOf, WithRecord, Lower, IntOf;
    if n > 0 { CountsSpellings(e, gems, n - 1, spelling); }
  }

  lemma {:induction false} OrderIsDistinct(e: Entries, gems: seq<Gem>, n: nat)
    requires AllOk(gems) && n <= |gems|
    ensures var p := AddGems(e, gems, n);
            forall i, j :: 0 <= i < j < |p.order| ==> p.order[i] != p.order[j]
    decreases n
  {
    hide NamedBy, BytesOf, WithRecord, Lower, IntOf;
    if n > 0 {
      OrderIsDistinct(e, gems, n - 1);
      var p := AddGems(e, gems, n - 1);
      CountsSpellings(e, gems, n - 1, Lower(gems[n - 1].owner));
    }
  }

  /** All gems of one owner are spelled the same way, up to letter case. */
  predicate OneSpelling(gems: seq<Gem>)
    requires AllOk(gems)
  {
    forall i, j :: 0 <= i < |gems| && 0 <= j < |gems| && OwnerAt(gems, i) == OwnerAt(gems, j) ==>
      SpellingAt(gems, i) == SpellingAt(gems, j)
  }

  /** A spelling is counted at most as often as its owner has gems, and exactly as often if the owner has one
      spelling. */
  lemma {:induction false} SpelledIsMine(gems: seq<Gem>, i: nat, n: nat)
    requires AllOk(gems) && i < |gems| && n <= |gems|
    ensures Spelled(gems, SpellingAt(gems, i), n) <= |Mine(gems, OwnerAt(gems, i), n)|
    ensures OneSpelling(gems) ==> Spelled(gems, SpellingAt(gems, i), n) == |Mine(gems, OwnerAt(gems, i), n)|
    decreases n
  {
    hide NamedBy, Lower;
    if n > 0 { SpelledIsMine(gems, i, n - 1); }
  }

  /** A second spelling of an owner makes its first one fall short. */
  lemma {:induction false} SecondSpellingCounts(gems: seq<Gem>, i: nat, j: nat, n: nat)
    requires AllOk(gems) && i < |gems| && j < n <= |gems|
    requires OwnerAt(gems, i) == OwnerAt(gems, j) && SpellingAt(gems, i) != SpellingAt(gems, j)
    ensures Spelled(gems, SpellingAt(gems, i), n) < |Mine(gems, OwnerAt(gems, i), n)|
    decreases n
  {
    hide NamedBy, Lower;
    if j == n - 1 { SpelledIsMine(gems, i, n - 1); } else { SecondSpellingCounts(gems, i, j, n - 1); }
  }

  // ----- frames -----

  lemma {:induction false} RecordFrame(e: Entries, g: Gem, id: GemId, n: nat, slot: Slot)
    requires GemOk(g) && forall j: nat :: 1 <= j <= n ==> slot != Mapped(GemKey(id), j)
    ensures slot in WithRecord(e, g, id, n) <==> slot in e
    ensures slot in e ==> WithRecord(e, g, id, n)[slot] == e[slot]
    decreases n
  {
    hide GemOk, RecordWord;
    if n > 0 {
      assert slot != Mapped(GemKey(id), n);
      RecordFrame(e, g, id, n - 1, slot);
    }
  }

  lemma {:induction false} RecordWritten(e: Entries, g: Gem, id: GemId, n: nat, j: nat)
    requires GemOk(g) && 1 <= j <= n
    ensures WordAt(WithRecord(e, g, id, n), Mapped(GemKey(id), j)) == RecordWord(g, j)
    decreases n
  {
    hide GemOk, RecordWord;
    if j < n { RecordWritten(e, g, id, n - 1, j); }
  }

  /** A slot that holds an entry there, or nothing. */
  function Held(e: Entries, slot: Slot): Option<Value> {
    if slot in e then Some(e[slot]) else None
  }

  /** What one gem writes outside its record. */
  lemma GemWrites(p: Progress, g: Gem, i: nat, slot: Slot)
    requires GemOk(g) && forall id: GemId, j: nat :: 1 <= j <= 17 ==> slot != Mapped(GemKey(id), j)
    ensures var bytes := BytesOf(Lower(g.owner)).value;
            var id := GemId(bytes, g.load, i);
            Held(AddGem(p, g, i).entries, slot) ==
              if slot == PositionSlot(id) then Some(Word(i))
              else if slot == ListSlot(i) || slot == IndexSlot(bytes, Count(p, Lower(g.owner))) then Some(Id(id))
              else Held(p.entries, slot)
  {
    hide WithRecord, Lower, BytesOf;
    RecordFrame(p.entries, g, GemId(BytesOf(Lower(g.owner)).value, g.load, i), 17, slot);
  }

  predicate NoRecordSlot(slot: Slot) {
    !(slot.root.Mapping? && slot.root.key.GemKey? && 1 <= slot.root.base <= 17)
  }

  lemma NoRecordSlotMeans(slot: Slot)
    requires NoRecordSlot(slot)
    ensures forall id: GemId, j: nat :: 1 <= j <= 17 ==> slot != Mapped(GemKey(id), j)
  {
  }

  /** The global list and the position map, after n gems. */
  lemma {:induction false} ListWritten(gems: seq<Gem>, n: nat, i: nat)
    requires AllOk(gems) && i < n <= |gems|
    ensures var f := AddGems(map[], gems, n).entries;
            && Held(f, ListSlot(i)) == Some(Id(IdAt(gems, i)))
            && Held(f, PositionSlot(IdAt(gems, i))) == Some(Word(i))
    decreases n
  {
    hide AddGem, BytesOf, Lower, IntOf, FromBytes;
    var p := AddGems(map[], gems, n - 1);
    NoRecordSlotMeans(ListSlot(i));
    NoRecordSlotMeans(PositionSlot(IdAt(gems, i)));
    GemWrites(p, gems[n - 1], n - 1, ListSlot(i));
    GemWrites(p, gems[n - 1], n - 1, PositionSlot(IdAt(gems, i)));
    if i < n - 1 { ListWritten(gems, n - 1, i); }
  }

  /** A position that is recorded is the gem's own. */
  lemma {:induction false} PositionsWritten(gems: seq<Gem>, n: nat, id: GemId)
    requires AllOk(gems) && n <= |gems|
    ensures var held := Held(AddGems(map[], gems, n).entries, PositionSlot(id));
            held.Some? ==> held.value.Word? && held.value.n < n && IdAt(gems, held.value.n) == id
    decreases n
  {
    hide AddGem, BytesOf, Lower, IntOf, FromBytes;
    if n > 0 {
      NoRecordSlotMeans(PositionSlot(id));
      GemWrites(AddGems(map[], gems, n - 1), gems[n - 1], n - 1, PositionSlot(id));
      PositionsWritten(gems, n - 1, id);
    }
  }

  /** No owner is spelled with white space. */
  predicate NoBlanks(gems: seq<Gem>) {
    forall i :: 0 <= i < |gems| ==> Blankless(gems[i].owner)
  }

  /** Without white space a gem is filed under its owner's 20 bytes, and with it under fewer. */
  lemma FiledExactlyWhen(gems: seq<Gem>, i: nat)
    requires AllOk(gems) && i < |gems|
    ensures Blankless(gems[i].owner) <==> |BytesAt(gems, i)| == 20
    ensures |BytesAt(gems, i)| == 20 ==> BytesAt(gems, i) == ToBytes(OwnerAt(gems, i), 20)
  {
    hide Pairs, Lower, WithoutPrefix;
    assert GemOk(gems[i]);
    FullExactlyWhen(gems[i].owner, 20);
    BytesRoundTrip(BytesAt(gems, i));
  }

  /** Twenty bytes name an address. */
  predicate IsAddress(a: nat) {
    a < Pow256(20)
  }

  lemma OwnerIsAddress(gems: seq<Gem>, i: nat)
    requires AllOk(gems) && i < |gems|
    ensures IsAddress(OwnerAt(gems, i))
  {
    hide Pairs, Lower, WithoutPrefix;
    assert GemOk(gems[i]);
    FullExactlyWhen(gems[i].owner, 20);
    FromBytesBound(BytesAt(gems, i));
    PowersIncrease(|BytesAt(gems, i)|, 20);
  }

  /** The slot a gem is filed under is the contract's for its owner, unless white space cut its bytes. */
  lemma FiledUnder(gems: seq<Gem>, i: nat, owner: Address, k: nat, m: nat)
    requires AllOk(gems) && i < |gems| && IsAddress(owner)
    ensures OwnerSlot(owner, k) == IndexSlot(BytesAt(gems, i), m) <==>
              Blankless(gems[i].owner) && owner == OwnerAt(gems, i) && k == m
  {
    hide BytesOf, Lower, ToBytes, FromBytes, Pow256;
    FiledExactlyWhen(gems, i);
    NumberRoundTrip(owner, 20);
    assert |ToBytes(owner, 20)| == 20;
  }

  lemma NothingAdded(gems: seq<Gem>)
    requires AllOk(gems)
    ensures AddGems(map[], gems, 0).entries == map[]
  {
  }

  /** What the n-th gem writes into the index of an owner. */
  lemma OwnerWrites(gems: seq<Gem>, n: nat, owner: Address, k: nat)
    requires AllOk(gems) && 0 < n <= |gems| && IsAddress(owner)
    ensures Held(AddGems(map[], gems, n).entries, OwnerSlot(owner, k)) ==
              if Blankless(gems[n - 1].owner) && owner == OwnerAt(gems, n - 1) &&
                k == Spelled(gems, SpellingAt(gems, n - 1), n - 1)
              then Some(Id(IdAt(gems, n - 1))) else Held(AddGems(map[], gems, n - 1).entries, OwnerSlot(owner, k))
  {
    hide AddGem, AddressOf, BytesOf, Lower, ToBytes, IsAddress, Blankless, Spelled;
    var p := AddGems(map[], gems, n - 1);
    CountsSpellings(map[], gems, n - 1, SpellingAt(gems, n - 1));
    FiledUnder(gems, n - 1, owner, k, Count(p, SpellingAt(gems, n - 1)));
    NoRecordSlotMeans(OwnerSlot(owner, k));
    GemWrites(p, gems[n - 1], n - 1, OwnerSlot(owner, k));
  }

  /** With one spelling per owner and no white space, an owner's list holds exactly its gems, in order. */
  lemma {:induction false} OwnerListWritten(gems: seq<Gem>, n: nat, owner: Address, k: nat)
    requires AllOk(gems) && n <= |gems| && OneSpelling(gems) && NoBlanks(gems) && IsAddress(owner)
    ensures var mine := Mine(gems, owner, n);
            && (k < |mine| ==> mine[k] < |gems|)
            && Held(AddGems(map[], gems, n).entries, OwnerSlot(owner, k)) == if k < |mine| then
              Some(Id(IdAt(gems, mine[k]))) else None
    decreases n
  {
    hide AddGems, AddressOf, BytesOf, OneSpelling, Lower, OwnerSlot, IsAddress, Blankless, Spelled, GemOk;
    if n > 0 {
      OwnerListWritten(gems, n - 1, owner, k);
      assert Blankless(gems[n - 1].owner);
      OwnerWrites(gems, n, owner, k);
      SpelledIsMine(gems, n - 1, n - 1);
    } else {
      assert AddGems(map[], gems, 0).entries == map[] by { NothingAdded(gems); }
    }
  }

  /** An owner whose every spelling holds white space is never found in the index. */
  lemma {:induction false} NeverFiled(gems: seq<Gem>, n: nat, owner: Address, k: nat)
    requires AllOk(gems) && n <= |gems| && IsAddress(owner)
    requires forall i :: 0 <= i < |gems| && OwnerAt(gems, i) == owner ==> !Blankless(gems[i].owner)
    ensures Held(AddGems(map[], gems, n).entries, OwnerSlot(owner, k)) == None
    decreases n
  {
    hide AddGems, AddressOf, BytesOf, Lower, OwnerSlot, IsAddress, Blankless, Spelled;
    if n > 0 {
      NeverFiled(gems, n - 1, owner, k);
      OwnerWrites(gems, n, owner, k);
    } else {
      NothingAdded(gems);
    }
  }

  // ----- the counts -----

  /** The count written for an owner is that of its last spelling, if it has one. */
  lemma {:induction false} CountWritten(p: Progress, n: nat, owner: Address)
    requires Spellings(p.order) && n <= |p.order| && CountSlot(owner) !in p.entries
    ensures var held := Held(WithCounts(p, n), CountSlot(owner));
            match held
            case None => forall k :: 0 <= k < n ==> NamedBy(p.order[k]) != Some(owner)
            case Some(value) => exists k :: 0 <= k < n && NamedBy(p.order[k]) == Some(owner) &&
                                            value == Word(Count(p, p.order[k]))
    decreases n
  {
    hide NamedBy, Count;
    if n > 0 {
      CountWritten(p, n - 1, owner);
      if NamedBy(p.order[n - 1]) == Some(owner) {
        assert Held(WithCounts(p, n), CountSlot(owner)) == Some(Word(Count(p, p.order[n - 1])));
      }
    }
  }

  lemma {:induction false} CountFrame(p: Progress, n: nat, slot: Slot)
    requires Spellings(p.order) && n <= |p.order| && forall owner :: slot != CountSlot(owner)
    ensures Held(WithCounts(p, n), slot) == Held(p.entries, slot)
    decreases n
  {
    hide NamedBy, Count;
    if n > 0 {
      CountFrame(p, n - 1, slot);
      assert slot != CountSlot(NamedBy(p.order[n - 1]).value);
    }
  }

  lemma {:induction false} NoCountYet(gems: seq<Gem>, n: nat, owner: Address)
    requires AllOk(gems) && n <= |gems|
    ensures CountSlot(owner) !in AddGems(map[], gems, n).entries
    decreases n
  {
    hide AddGem, BytesOf, Lower, IntOf, FromBytes;
    if n > 0 {
      NoRecordSlotMeans(CountSlot(owner));
      GemWrites(AddGems(map[], gems, n - 1), gems[n - 1], n - 1, CountSlot(owner));
      NoCountYet(gems, n - 1, owner);
    }
  }

  /** A spelling that was seen belongs to some gem. */
  lemma {:induction false} SpellingHasGem(gems: seq<Gem>, spelling: string, n: nat) returns (i: nat)
    requires n <= |gems| && Spelled(gems, spelling, n) > 0
    ensures i < n && SpellingAt(gems, i) == spelling
    decreases n
  {
    if SpellingAt(gems, n - 1) == spelling { i := n - 1; } else { i := SpellingHasGem(gems, spelling, n - 1); }
  }

  lemma {:induction false} OwnerHasGem(gems: seq<Gem>, owner: Address, n: nat) returns (i: nat)
    requires AllOk(gems) && n <= |gems| && Mine(gems, owner, n) != []
    ensures i < n && OwnerAt(gems, i) == owner
    decreases n
  {
    if OwnerAt(gems, n - 1) == owner { i := n - 1; } else { i := OwnerHasGem(gems, owner, n - 1); }
  }

  lemma {:induction false} GemIsSpelled(gems: seq<Gem>, i: nat, n: nat)
    requires AllOk(gems) && i < n <= |gems|
    ensures Spelled(gems, SpellingAt(gems, i), n) > 0 && Mine(gems, OwnerAt(gems, i), n) != []
    decreases n
  {
    hide AddressOf, Lower;
    if i < n - 1 { GemIsSpelled(gems, i, n - 1); }
  }

  // ----- the whole storage -----

  function OwnedId(gems: seq<Gem>, owner: Address, k: nat): Option<Value>
    requires AllOk(gems)
  {
    var mine := Mine(gems, owner, |gems|);
    if k < |mine| && mine[k] < |gems| then Some(Id(IdAt(gems, mine[k]))) else None
  }

  /** Every owner's count is right, and its list holds exactly its gems, once each, in order. */
  ghost predicate Conserved(gems: seq<Gem>, f: Entries)
    requires AllOk(gems)
  {
    && (forall owner: Address :: IsAddress(owner) ==> WordAt(f, CountSlot(owner)) == |Mine(gems, owner, |gems|)|)
    && (forall owner: Address, k: nat :: IsAddress(owner) ==> Held(f, OwnerSlot(owner, k)) == OwnedId(gems, owner, k))
  }

  /** Slots that neither the counts nor the two lengths use keep what the gems wrote. */
  lemma SeededKeeps(gems: seq<Gem>, slot: Slot)
    requires AllOk(gems) && slot != Direct(0) && slot != Direct(20) && forall owner :: slot != CountSlot(owner)
    ensures Held(Seeded(map[], gems), slot) == Held(AddGems(map[], gems, |gems|).entries, slot)
  {
    hide AddGems, WithCounts;
    OrderNames(map[], gems, |gems|);
    var p := AddGems(map[], gems, |gems|);
    CountFrame(p, |p.order|, slot);
  }

  /** An owner with gems is named by some key of the dictionary. */
  lemma OwnerIsNamed(gems: seq<Gem>, owner: Address)
    requires AllOk(gems) && Mine(gems, owner, |gems|) != []
    ensures var order := AddGems(map[], gems, |gems|).order;
            exists k :: 0 <= k < |order| && NamedBy(order[k]) == Some(owner)
  {
    hide AddGems, Lower, NamedBy, Mine;
    var j := OwnerHasGem(gems, owner, |gems|);
    GemIsSpelled(gems, j, |gems|);
    CountsSpellings(map[], gems, |gems|, SpellingAt(gems, j));
  }

  /** An owner with gems is given the count of one of its spellings; an owner without gets none. */
  lemma OwnerCount(gems: seq<Gem>, owner: Address) returns (i: nat)
    requires AllOk(gems)
    ensures var n := |gems|;
            if Mine(gems, owner, n) == [] then WordAt(Seeded(map[], gems), CountSlot(owner)) == 0
            else
              i < n && OwnerAt(gems, i) == owner &&
              WordAt(Seeded(map[], gems), CountSlot(owner)) == Spelled(gems, SpellingAt(gems, i), n)
  {
    hide AddGems, Lower, NamedBy, WithCounts, Mine;
    var n := |gems|;
    var p := AddGems(map[], gems, n);
    OrderNames(map[], gems, n);
    NoCountYet(gems, n, owner);
    CountWritten(p, |p.order|, owner);
    var held := Held(WithCounts(p, |p.order|), CountSlot(owner));
    i := 0;
    if Mine(gems, owner, n) != [] { OwnerIsNamed(gems, owner); }
    if held.Some? {
      var k :| 0 <= k < |p.order| && NamedBy(p.order[k]) == Some(owner) && held.value == Word(Count(p, p.order[k]));
      CountsSpellings(map[], gems, n, p.order[k]);
      i := SpellingHasGem(gems, p.order[k], n);
      GemIsSpelled(gems, i, n);
    }
  }

  /** The seeded indexes conserve the gems exactly when no owner is spelled in two ways and none with white space. */
  lemma ConservedExactlyWhen(gems: seq<Gem>)
    requires AllOk(gems)
    ensures Conserved(gems, Seeded(map[], gems)) <==> OneSpelling(gems) && NoBlanks(gems)
  {
    hide AddGems, Seeded, Mine, Spelled, AllOk, Lower, AddressOf, BytesOf, ToBytes, IsAddress, Blankless;
    var f := Seeded(map[], gems);
    if OneSpelling(gems) && NoBlanks(gems) {
      forall owner: Address ensures WordAt(f, CountSlot(owner)) == |Mine(gems, owner, |gems|)| {
        var i := OwnerCount(gems, owner);
        if Mine(gems, owner, |gems|) != [] { SpelledIsMine(gems, i, |gems|); }
      }
      forall owner: Address, k: nat | IsAddress(owner) ensures Held(f, OwnerSlot(owner, k)) == OwnedId(gems, owner, k) {
        SeededKeeps(gems, OwnerSlot(owner, k));
        OwnerListWritten(gems, |gems|, owner, k);
      }
    } else if OneSpelling(gems) {
      var i :| 0 <= i < |gems| && !Blankless(gems[i].owner);
      BlankIsNotConserved(gems, i);
    } else {
      var i, j :| 0 <= i < |gems| && 0 <= j < |gems| && OwnerAt(gems, i) == OwnerAt(gems, j) &&
        SpellingAt(gems, i) != SpellingAt(gems, j);
      var owner := OwnerAt(gems, i);
      OwnerIsAddress(gems, i);
      GemIsSpelled(gems, i, |gems|);
      var x := OwnerCount(gems, owner);
      SecondSpellingCounts(gems, x, if SpellingAt(gems, x) == SpellingAt(gems, i) then j else i, |gems|);
      assert WordAt(f, CountSlot(owner)) != |Mine(gems, owner, |gems|)|;
    }
  }

  /** The gem of an owner spelled with white space is in no list that the contract reads. */
  lemma BlankIsNotConserved(gems: seq<Gem>, i: nat)
    requires AllOk(gems) && OneSpelling(gems) && i < |gems| && !Blankless(gems[i].owner)
    ensures !Conserved(gems, Seeded(map[], gems))
  {
    hide AddGems, Seeded, Spelled, AllOk, Lower, AddressOf, BytesOf, ToBytes, IsAddress, Blankless;
    var owner := OwnerAt(gems, i);
    OwnerIsAddress(gems, i);
    GemIsSpelled(gems, i, |gems|);
    MineInRange(gems, owner, |gems|);
    forall m | 0 <= m < |gems| && OwnerAt(gems, m) == owner ensures !Blankless(gems[m].owner) {
      SameBlanks(gems[m].owner, gems[i].owner);
    }
    SeededKeeps(gems, OwnerSlot(owner, 0));
    NeverFiled(gems, |gems|, owner, 0);
    assert OwnedId(gems, owner, 0).Some?;
  }

  lemma {:induction false} MineInRange(gems: seq<Gem>, owner: Address, n: nat)
    requires AllOk(gems) && n <= |gems|
    ensures forall k :: 0 <= k < |Mine(gems, owner, n)| ==> Mine(gems, owner, n)[k] < n
    decreases n
  {
    hide AddressOf;
    if n > 0 { MineInRange(gems, owner, n - 1); }
  }

  /** Spellings that differ in letter case only hold white space alike. */
  lemma SameBlanks(a: string, b: string)
    requires Lower(a) == Lower(b)
    ensures Blankless(a) <==> Blankless(b)
  {
    hide Lower, Blankless, Blanks;
    LowerKeepsBlanks(a);
    LowerKeepsBlanks(b);
    BlanklessCounts(a);
    BlanklessCounts(b);
  }

  /** The list and the position map are inverse for every gem list, and both lengths are the number of gems. */
  lemma ListIsInverse(gems: seq<Gem>, i: nat, id: GemId)
    requires AllOk(gems)
    ensures var f := Seeded(map[], gems);
            && WordAt(f, Direct(0)) == |gems| && WordAt(f, Direct(20)) == |gems|
            && (i < |gems| ==> Held(f, ListSlot(i)) == Some(Id(IdAt(gems, i))) &&
                               Held(f, PositionSlot(IdAt(gems, i))) == Some(Word(i)))
            && (PositionSlot(id) in f ==> f[PositionSlot(id)].Word? && f[PositionSlot(id)].n < |gems|
                                          && Held(f, ListSlot(f[PositionSlot(id)].n)) == Some(Id(id)))
  {
    hide AddGems, AddressOf, WithCounts;
    var n := |gems|;
    SeededKeeps(gems, PositionSlot(id));
    PositionsWritten(gems, n, id);
    forall m: nat | m < n ensures Held(Seeded(map[], gems), ListSlot(m)) == Some(Id(IdAt(gems, m))) {
      SeededKeeps(gems, ListSlot(m));
      ListWritten(gems, n, m);
    }
    if i < n {
      SeededKeeps(gems, PositionSlot(IdAt(gems, i)));
      ListWritten(gems, n, i);
    }
  }

  // ----- the counts add up -----

  function OrderSum(counts: map<string, nat>, order: seq<string>): nat {
    if order == [] then 0
    else
      var last := order[|order| - 1];
      OrderSum(counts, order[..|order| - 1]) + if last in counts then counts[last] else 0
  }

  predicate DistinctKeys(order: seq<string>) {
    forall i, j :: 0 <= i < j < |order| ==> order[i] != order[j]
  }

  lemma {:induction false} SumWithout(counts: map<string, nat>, order: seq<string>, key: string, value: nat)
    requires key !in order
    ensures OrderSum(counts[key := value], order) == OrderSum(counts, order)
    decreases |order|
  {
    if order != [] {
      assert order[|order| - 1] in order;
      SumWithout(counts, order[..|order| - 1], key, value);
    }
  }

  lemma {:induction false} SumBump(counts: map<string, nat>, order: seq<string>, key: string)
    requires DistinctKeys(order) && key in order && key in counts
    ensures OrderSum(counts[key := counts[key] + 1], order) == OrderSum(counts, order) + 1
    decreases |order|
  {
    var rest, last := order[..|order| - 1], order[|order| - 1];
    if last == key {
      assert key !in rest;
      SumWithout(counts, rest, key, counts[key] + 1);
    } else {
      assert key in rest;
      SumBump(counts, rest, key);
    }
  }

  /** The dictionary's counts always add up to the number of gems. */
  lemma {:induction false} CountsAddUp(e: Entries, gems: seq<Gem>, n: nat)
    requires AllOk(gems) && n <= |gems|
    ensures var p := AddGems(e, gems, n);
            DistinctKeys(p.order) && OrderSum(p.counts, p.order) == n
    decreases n
  {
    hide AddGem, Lower;
    OrderIsDistinct(e, gems, n);
    if n > 0 {
      CountsAddUp(e, gems, n - 1);
      CountsSpellings(e, gems, n - 1, Lower(gems[n - 1].owner));
      OneMoreCounted(AddGems(e, gems, n - 1), gems[n - 1], n - 1);
    }
  }

  lemma OneMoreCounted(p: Progress, g: Gem, i: nat)
    requires GemOk(g) && DistinctKeys(p.order) && (Lower(g.owner) in p.order <==> Lower(g.owner) in p.counts)
    ensures OrderSum(AddGem(p, g, i).counts, AddGem(p, g, i).order) == OrderSum(p.counts, p.order) + 1
  {
    hide NamedBy, WithRecord, Lower;
    var key := Lower(g.owner);
    if key in p.counts {
      SumBump(p.counts, p.order, key);
    } else {
      SumWithout(p.counts, p.order, key, 1);
      assert (p.order + [key])[..|p.order|] == p.order;
    }
  }

  /** The counts in storage, over the owners in the order they appear. */
  function StoredSum(f: Entries, order: seq<string>): nat
    requires Spellings(order)
  {
    if order == [] then 0
    else StoredSum(f, order[..|order| - 1]) + WordAt(f, CountSlot(NamedBy(order[|order| - 1]).value))
  }

  lemma {:induction false} StoredIsCounted(gems: seq<Gem>, order: seq<string>)
    requires AllOk(gems) && OneSpelling(gems) && Spellings(order)
    requires forall k :: 0 <= k < |order| ==> order[k] in AddGems(map[], gems, |gems|).order
    ensures StoredSum(Seeded(map[], gems), order) == OrderSum(AddGems(map[], gems, |gems|).counts, order)
    decreases |order|
  {
    hide AddGems, Seeded, NamedBy, Lower, OneSpelling, Mine, Spelled;
    if order != [] {
      StoredIsCounted(gems, order[..|order| - 1]);
      var key := order[|order| - 1];
      CountsSpellings(map[], gems, |gems|, key);
      var i := SpellingHasGem(gems, key, |gems|);
      SpelledIsMine(gems, i, |gems|);
      GemIsSpelled(gems, i, |gems|);
      var owner := OwnerAt(gems, i);
      var x := OwnerCount(gems, owner);
      SpelledIsMine(gems, x, |gems|);
    }
  }

  /** The spellings name every owner that has a gem, each exactly once. */
  predicate NamesOwnersOnce(gems: seq<Gem>, order: seq<string>)
    requires AllOk(gems) && Spellings(order)
  {
    && (forall i, j :: 0 <= i < j < |order| ==> NamedBy(order[i]) != NamedBy(order[j]))
    && (forall i :: 0 <= i < |gems| ==> SpellingAt(gems, i) in order)
    && (forall k :: 0 <= k < |order| ==> NamesOwner(gems, order[k]))
  }

  predicate NamesOwner(gems: seq<Gem>, spelling: string)
    requires AllOk(gems)
  {
    exists i :: 0 <= i < |gems| && NamedBy(spelling) == Some(OwnerAt(gems, i))
  }

  lemma OrderNamesOwnersOnce(gems: seq<Gem>)
    requires AllOk(gems) && OneSpelling(gems)
    ensures var order := AddGems(map[], gems, |gems|).order;
            Spellings(order) && NamesOwnersOnce(gems, order)
  {
    hide AddGems, BytesOf, FromBytes, Lower, Spelled, Mine, GemOk, NamesOwner, OneSpelling;
    var order := AddGems(map[], gems, |gems|).order;
    OrderNames(map[], gems, |gems|);
    OrderIsDistinct(map[], gems, |gems|);
    forall i | 0 <= i < |gems| ensures SpellingAt(gems, i) in order {
      GemIsSpelled(gems, i, |gems|);
      CountsSpellings(map[], gems, |gems|, SpellingAt(gems, i));
    }
    forall k | 0 <= k < |order| ensures NamesOwner(gems, order[k]) { var i := GemOfSpelling(gems, order[k]); }
    forall x, y | 0 <= x < y < |order| ensures NamedBy(order[x]) != NamedBy(order[y]) {
      DifferentOwners(gems, order[x], order[y]);
    }
  }

  lemma GemOfSpelling(gems: seq<Gem>, spelling: string) returns (i: nat)
    requires AllOk(gems) && spelling in AddGems(map[], gems, |gems|).order
    ensures i < |gems| && SpellingAt(gems, i) == spelling && NamedBy(spelling) == Some(OwnerAt(gems, i)) &&
            NamesOwner(gems, spelling)
  {
    hide AddGems, NamedBy, Lower, Spelled;
    CountsSpellings(map[], gems, |gems|, spelling);
    i := SpellingHasGem(gems, spelling, |gems|);
    assert GemOk(gems[i]);
  }

  lemma DifferentOwners(gems: seq<Gem>, a: string, b: string)
    requires AllOk(gems) && OneSpelling(gems) && a != b
    requires a in AddGems(map[], gems, |gems|).order && b in AddGems(map[], gems, |gems|).order
    ensures NamedBy(a) != NamedBy(b)
  {
    hide AddGems, NamedBy, Lower;
    var i := GemOfSpelling(gems, a);
    var j := GemOfSpelling(gems, b);
  }

  /**
   With one spelling per owner, the stored counts, summed over the owners that have gems,
   each taken once, are the total supply and the list's length.
   */
  lemma SupplyIsConserved(gems: seq<Gem>)
    requires AllOk(gems) && OneSpelling(gems)
    ensures var f := Seeded(map[], gems);
            var order := AddGems(map[], gems, |gems|).order;
            && Spellings(order) && NamesOwnersOnce(gems, order)
            && StoredSum(f, order) == |gems| == WordAt(f, Direct(0)) == WordAt(f, Direct(20))
  {
    hide AddGems, StoredSum, OrderSum, OneSpelling, NamedBy, WithCounts, NamesOwnersOnce;
    OrderNamesOwnersOnce(gems);
    OrderNames(map[], gems, |gems|);
    CountsAddUp(map[], gems, |gems|);
    StoredIsCounted(gems, AddGems(map[], gems, |gems|).order);
    ListIsInverse(gems, 0, GemId([], 0, 0));
  }

  // ----- the record names the same owner -----

  /** Digits in pairs are the bytes of the number they write. */
  lemma {:induction false} PairsValue(h: string)
    requires Digits(h) && |h| % 2 == 0
    ensures Pairs(h).Some? && HexValue(h).Some? && FromBytes(Pairs(h).value) == HexValue(h).value
    decreases |h|
  {
    hide Pairs, HexDigit;
    PairsAt(h);
    HexValueDigits(h);
    if h != "" {
      var front := h[..|h| - 2];
      PairsValue(front);
      PairsAt(front);
      var bytes := Pairs(h).value;
      assert bytes[..|bytes| - 1] == Pairs(front).value;
      assert h[..|h| - 1][..|h| - 2] == front;
    }
  }

  /** The number in the record is the address under which the gem is counted. */
  lemma RecordNamesOwner(g: Gem)
    requires GemOk(g)
    ensures IntOf(g.owner) == AddressOf(g.owner)
  {
    hide Pairs, Lower, WithoutPrefix, HexValue, IntOf, FromBytes;
    var left, prefix, h, right := NumberShape(g.owner);
    NumberIsRead(left, prefix, h, right);
    if |Lower(h)| % 2 == 1 { OddIsRefused(Lower(h)); }
    PairsValue(Lower(h));
  }

  lemma {:induction false} RecordStays(gems: seq<Gem>, n: nat, i: nat, j: nat)
    requires AllOk(gems) && i < n <= |gems| && 1 <= j <= 17
    ensures WordAt(AddGems(map[], gems, n).entries, Mapped(GemKey(IdAt(gems, i)), j)) == RecordWord(gems[i], j)
    decreases n
  {
    hide BytesOf, Lower, IntOf, FromBytes, RecordWord, WithRecord;
    var p := AddGems(map[], gems, n - 1);
    var slot := Mapped(GemKey(IdAt(gems, i)), j);
    if i == n - 1 {
      RecordWritten(p.entries, gems[i], IdAt(gems, i), 17, j);
    } else {
      RecordStays(gems, n - 1, i, j);
      RecordFrame(p.entries, gems[n - 1], IdAt(gems, n - 1), 17, slot);
    }
  }

  /** Every gem's record is as configured, and its owner word names the address the gem is counted under. */
  lemma RecordsStand(gems: seq<Gem>, i: nat, j: nat)
    requires AllOk(gems) && i < |gems| && 1 <= j <= 17
    ensures WordAt(Seeded(map[], gems), Mapped(GemKey(IdAt(gems, i)), j)) == RecordWord(gems[i], j)
    ensures RecordWord(gems[i], 1) == OwnerAt(gems, i)
  {
    hide AddGems, Seeded, BytesOf, Lower, IntOf, NamedBy;
    RecordStays(gems, |gems|, i, j);
    SeededKeeps(gems, Mapped(GemKey(IdAt(gems, i)), j));
    RecordNamesOwner(gems[i]);
  }

  // ----- three spellings -----

  predicate HexDigits(h: string, n: nat) {
    |h| == n && Digits(h)
  }

  /** Plain digits, as `int` and `address_bytes` read them. */
  lemma PlainReads(h: string)
    requires h != "" && Digits(h)
    ensures Lower(h) == h && WithoutPrefix(h) == h && IntOf(h).Some?
  {
    hide Lower, HexDigit, HexValue;
    forall k | 0 <= k < |h| ensures !IsBlank(h[k]) && h[k] != 'x' && !('A' <= h[k] <= 'Z') { DigitIsNoBlank(h[k]); }
    LowerPlain(h);
    NothingToRemove(h);
    HexValueDigits(h);
  }

  lemma NothingToStrip(s: string)
    requires s != "" && !IsBlank(s[0]) && !IsBlank(s[|s| - 1])
    ensures RightStripped(LeftStripped(s)) == s
  {
  }

  lemma PrefixReads(h: string)
    requires h != "" && Digits(h)
    ensures Lower("0x" + h) == "0x" + h && WithoutPrefix("0x" + h) == h && IntOf("0x" + h).Some?
  {
    PlainReads(h);
    var s := "0x" + h;
    assert s[2..] == h && s[1..] == "x" + h;
    LowerConcat("0x", h);
    LowerPlain("0x");
    DigitIsNoBlank(h[|h| - 1]);
    assert s[|s| - 1] == h[|h| - 1];
    NothingToStrip(s);
    hide Lower, HexValue, LeftStripped, RightStripped;
    HexValueDigits(h);
  }

  /** Two gems of one owner, once with and once without the prefix, are never conserved. */
  lemma PrefixBreaksConservation(h: string, load: nat, other: nat -> nat)
    requires HexDigits(h, 40)
    ensures var gems := [Gem("0x" + h, load, SETTLED, other), Gem(h, load, SETTLED, other)];
            AllOk(gems) && NoBlanks(gems) && !Conserved(gems, Seeded(map[], gems))
  {
    hide Conserved, Seeded, Pairs, Lower, WithoutPrefix, IntOf, HexDigit;
    var gems := [Gem("0x" + h, load, SETTLED, other), Gem(h, load, SETTLED, other)];
    PlainReads(h);
    PrefixReads(h);
    PairsAt(h);
    forall k | 0 <= k < |h| ensures !IsBlank(h[k]) { DigitIsNoBlank(h[k]); }
    assert OwnerAt(gems, 0) == OwnerAt(gems, 1) && SpellingAt(gems, 0) != SpellingAt(gems, 1);
    ConservedExactlyWhen(gems);
  }

  /** One gem of an owner with two digits replaced by blanks is accepted, and is not conserved. */
  lemma BlanksBreakConservation(h: string, load: nat, other: nat -> nat)
    requires HexDigits(h, 38)
    ensures var gems := [Gem(h + "  ", load, SETTLED, other)];
            AllOk(gems) && OneSpelling(gems) && !Conserved(gems, Seeded(map[], gems))
  {
    hide Conserved, Seeded, Pairs, Lower, WithoutPrefix, IntOf, HexDigit, FromBytes;
    var gems := [Gem(h + "  ", load, SETTLED, other)];
    BlankedReads(h);
    PairsAt(h);
    assert gems[0].owner[38] == ' ';
    ConservedExactlyWhen(gems);
  }

  lemma BlankedReads(h: string)
    requires h != "" && Digits(h)
    ensures Lower(h + "  ") == h + "  " && WithoutPrefix(h + "  ") == h + "  " && IntOf(h + "  ").Some?
    ensures Pairs(h + "  ") == Pairs(h)
  {
    PlainReads(h);
    LowerConcat(h, "  ");
    LowerPlain("  ");
    assert 'x' !in h by { forall k | 0 <= k < |h| ensures h[k] != 'x' { DigitIsNoBlank(h[k]); } }
    NothingToRemove(h + "  ");
    BlanksBehind(h, "  ");
    DigitIsNoBlank(h[0]);
    DigitIsNoBlank(h[|h| - 1]);
    StripsBlanks(h);
    hide Lower, HexValue, Pairs;
    HexValueDigits(h);
    assert !HasPrefix(h) by { if |h| >= 2 { DigitIsNoBlank(h[1]); } }
  }

  lemma StripsBlanks(h: string)
    requires h != "" && !IsBlank(h[0]) && !IsBlank(h[|h| - 1])
    ensures RightStripped(LeftStripped(h + "  ")) == h
  {
    var s := h + "  ";
    assert LeftStripped(s) == s;
    assert RightStripped(h) == h;
    assert (h + " ")[..|h + " "| - 1] == h;
    assert RightStripped(h + " ") == h;
    assert s[..|s| - 1] == h + " " && s[|s| - 1] == ' ';
  }

  /** A prefix written twice is read as bytes but is no number, so it is refused. */
  lemma SecondPrefixIsRefused(h: string, load: nat, other: nat -> nat)
    requires HexDigits(h, 40)
    ensures AddressOf("0x0x" + h).Some? && !GemOk(Gem("0x0x" + h, load, SETTLED, other))
  {
    hide Pairs, Lower, WithoutPrefix, IntOf, HexDigit;
    PlainReads(h);
    PrefixReads(h);
    PairsAt(h);
    SecondPrefixReads(h);
  }

  lemma SecondPrefixReads(h: string)
    requires h != "" && Digits(h)
    ensures Lower("0x0x" + h) == "0x0x" + h && WithoutPrefix("0x0x" + h) == WithoutPrefix("0x" + h) &&
            IntOf("0x0x" + h).None?
  {
    hide HexDigit, HexValue, LeftStripped, RightStripped, Lower;
    PrefixReads(h);
    var s := "0x0x" + h;
    assert s == "0x" + ("0x" + h) && s[2..] == "0x" + h;
    LowerConcat("0x", "0x" + h);
    LowerPlain("0x");
    DigitIsNoBlank(h[|h| - 1]);
    assert s[|s| - 1] == h[|h| - 1];
    NothingToStrip(s);
    HexValueDigits("0x" + h);
    assert ("0x" + h)[1] == 'x' && HexDigit('x').None? by { NoDigit(); }
  }

  lemma NoDigit()
    ensures HexDigit('x').None?
  {
  }
}
