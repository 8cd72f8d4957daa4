/** The oracle's pair registry at genesis: validated as a whole, then written into its two index mappings. */
module Oracle {
  import opened Basics
  import opened ByteOrder
  import opened HexText
  import opened Storage

  const NATIVE: Address := 0
  const ISO_MARKER: nat := 0xCC000

  /** One decimal digit per nibble. */
  function Bcd(code: nat): nat {
    256 * (code / 100 % 10) + 16 * (code / 10 % 10) + code % 10
  }

  // ----- assets are texts -----

  /** What `strip` takes off the ends of a text. */
  predicate IsSpace(c: char) {
    IsBlank(c) || 28 <= c as int <= 31
  }

  function LeftTrimmed(s: string): string {
    if s != "" && IsSpace(s[0]) then LeftTrimmed(s[1..]) else s
  }

  /** `s.strip()`. */
  function Trimmed(s: string): string {
    if s != "" && IsSpace(s[|s| - 1]) then Trimmed(s[..|s| - 1]) else LeftTrimmed(s)
  }

  predicate IsDecimal(s: string) {
    s != "" && forall k :: 0 <= k < |s| ==> '0' <= s[k] <= '9'
  }

  function Decimal(s: string): nat
    requires forall k :: 0 <= k < |s| ==> '0' <= s[k] <= '9'
  {
    if s == "" then 0 else 10 * Decimal(s[..|s| - 1]) + (s[|s| - 1] as int - '0' as int)
  }

  /** The native asset's address, in bytes. */
  function NativeBytes(): seq<Byte> {
    ToBytes(NATIVE, 20)
  }

  /** `asset_address`; `None` is a `ValueError`. */
  function AssetBytes(text: string): Option<seq<Byte>> {
    var t := Trimmed(text);
    if Lower(t) == "rudis" || Lower(t) == "coen" || Lower(t) == "native" then Some(NativeBytes())
    else if HasPrefix(t) then Read(t, 40)
    else if IsDecimal(t) && 1 <= Decimal(t) <= 999 then Some(ToBytes(ISO_MARKER + Bcd(Decimal(t)), 20))
    else None
  }

  /** `is_iso_asset_address`. */
  predicate IsIso(address: Address) {
    && ISO_MARKER <= address <= ISO_MARKER + 0x999
    && var bcd := address - ISO_MARKER;
    bcd % 16 <= 9 && bcd / 16 % 16 <= 9 && bcd / 256 % 16 <= 9 && bcd / 4096 % 16 <= 9
  }

  /** Three decimal digits in three nibbles, and back. */
  lemma NibblesOf(h: nat, t: nat, u: nat)
    requires h <= 9 && t <= 9 && u <= 9
    ensures Bcd(100 * h + 10 * t + u) == 256 * h + 16 * t + u
    ensures IsIso(ISO_MARKER + 256 * h + 16 * t + u)
  {
    var code := 100 * h + 10 * t + u;
    assert code / 100 == h;
    assert code / 10 == 10 * h + t;
    assert code % 10 == u;
    var bcd := 256 * h + 16 * t + u;
    assert bcd / 16 == 16 * h + t;
    assert bcd / 256 == h;
  }

  lemma CodeOf(address: Address) returns (h: nat, t: nat, u: nat)
    requires IsIso(address)
    ensures h <= 9 && t <= 9 && u <= 9 && address == ISO_MARKER + 256 * h + 16 * t + u
  {
    var bcd := address - ISO_MARKER;
    ThreeNibbles(bcd);
    h, t, u := bcd / 256, bcd / 16 % 16, bcd % 16;
  }

  lemma ThreeNibbles(bcd: nat)
    requires bcd <= 0x999
    ensures bcd == 256 * (bcd / 256) + 16 * (bcd / 16 % 16) + bcd % 16 && bcd / 256 <= 9
  {
    var q := bcd / 16;
    assert bcd == 16 * q + bcd % 16;
    assert q == 16 * (q / 16) + q % 16;
    assert 16 * (q / 16) <= q <= 0x99;
    assert 256 * (q / 16) <= bcd < 256 * (q / 16) + 256;
  }

  /** The reserved addresses are exactly the codes 0 to 999 behind the marker. */
  lemma IsoAddresses(address: Address)
    ensures IsIso(address) <==> exists code: nat :: code <= 999 && address == ISO_MARKER + Bcd(code)
  {
    hide IsIso, Bcd;
    if IsIso(address) {
      var h, t, u := CodeOf(address);
      NibblesOf(h, t, u);
      assert 100 * h + 10 * t + u <= 999;
    }
    forall code: nat | code <= 999 && address == ISO_MARKER + Bcd(code) ensures IsIso(address) {
      var h, t, u := code / 100, code / 10 % 10, code % 10;
      assert code == 100 * h + 10 * t + u;
      NibblesOf(h, t, u);
    }
  }

  /** `address_pair`: the bytes of both assets, the lower first. */
  function PairBytes(base: seq<Byte>, quote: seq<Byte>): seq<Byte> {
    if AtMost(base, quote) then base + quote else quote + base
  }

  /** Two pairs of full addresses have the same bytes exactly when they are the same unordered pair. */
  lemma PairBytesUnordered(a: seq<Byte>, b: seq<Byte>, c: seq<Byte>, d: seq<Byte>)
    requires |a| == 20 && |b| == 20 && |c| == 20 && |d| == 20
    ensures PairBytes(a, b) == PairBytes(c, d) <==> (a == c && b == d) || (a == d && b == c)
  {
    hide AtMost;
    var x, y := PairBytes(a, b), PairBytes(c, d);
    assert x[..20] == (if AtMost(a, b) then a else b) && x[20..] == if AtMost(a, b) then b else a;
    assert y[..20] == (if AtMost(c, d) then c else d) && y[20..] == if AtMost(c, d) then d else c;
    AtMostTotal(a, b);
    if AtMost(a, b) && AtMost(b, a) { AtMostAntisymmetric(a, b); }
  }

  /** `key_bytes.rjust(32)`, which only lengthens. */
  function Padded(bytes: seq<Byte>): seq<Byte> {
    if |bytes| >= 32 then bytes else ZeroBytes(32 - |bytes|) + bytes
  }

  function PairOf(base: seq<Byte>, quote: seq<Byte>): Key {
    PairKey(Padded(PairBytes(base, quote)))
  }

  datatype PairConfig = PairConfig(base: string, quote: string, voteTarget: bool, rate: nat, block: nat, timestamp: nat)

  /** A validated pair, in its configured orientation. */
  datatype Pair = Pair(base: seq<Byte>, quote: seq<Byte>)

  /** Why one more pair is refused, after the pairs already accepted. */
  predicate Acceptable(accepted: seq<Pair>, p: PairConfig) {
    && AssetBytes(p.base).Some? && AssetBytes(p.quote).Some?
    && var base, quote := AssetBytes(p.base).value, AssetBytes(p.quote).value;
    && base != quote
    && Pair(base, quote) !in accepted
    && (forall k :: 0 <= k < |accepted| ==> PairBytes(accepted[k].base, accepted[k].quote) != PairBytes(base, quote))
    && !(IsIso(FromBytes(base)) && quote == NativeBytes())
  }

  /** The validated pairs of a list; `None` if any is refused. */
  function Validated(pairs: seq<PairConfig>): Option<seq<Pair>> {
    if pairs == [] then Some([])
    else
      var before := Validated(pairs[..|pairs| - 1]);
      var p := pairs[|pairs| - 1];
      if before.None? || !Acceptable(before.value, p) then None
      else Some(before.value + [Pair(AssetBytes(p.base).value, AssetBytes(p.quote).value)])
  }

  function Ordinal(pair: Key): Slot {
    Mapped(pair, 10)
  }

  function ByIndex(index: nat): Slot {
    Mapped(IndexKey(index), 43)
  }

  /** The slots of pair number k, counted from 1. */
  function WithPair(e: Entries, p: PairConfig, pair: Pair, k: nat): Entries {
    var h := PairOf(pair.base, pair.quote);
    var registered := e[Ordinal(h) := Word(k)]
                       [Mapped(h, 11) := Word(if p.voteTarget then 1 else 0)]
                       [ByIndex(k) := Word(FromBytes(pair.base))]
                       [After(ByIndex(k)) := Word(FromBytes(pair.quote))];
    if p.rate == 0 then registered
    else
      registered[Mapped(IndexKey(k), 12) := Word(p.rate)]
                [Mapped(IndexKey(k), 13) := Word(p.block)]
                [Mapped(IndexKey(k), 14) := Word(p.timestamp)]
  }

  function WithPairs(e: Entries, pairs: seq<PairConfig>, valid: seq<Pair>, n: nat): Entries
    requires n <= |pairs| == |valid|
  {
    if n == 0 then e else WithPair(WithPairs(e, pairs, valid, n - 1), pairs[n - 1], valid[n - 1], n)
  }

  function WithSettings(e: Entries, settings: seq<nat>, n: nat): Entries
    requires n <= |settings|
  {
    if n == 0 then e else WithSettings(e, settings, n - 1)[Direct(n - 1) := Word(settings[n - 1])]
  }

  /** The registry part of `seed_oracle`: `settings` are slots 0 to 7. */
  function Seeded(e: Entries, settings: seq<nat>, pairs: seq<PairConfig>): Option<Entries>
    requires |settings| == 8
  {
    match Validated(pairs)
    case None => None
    case Some(valid) =>
      ValidatedLength(pairs);
      Some(WithPairs(WithSettings(e, settings, 8)[Direct(8) := Word(|pairs|)], pairs, valid, |pairs|))
  }

  lemma {:induction false} ValidatedLength(pairs: seq<PairConfig>)
    requires Validated(pairs).Some?
    ensures |Validated(pairs).value| == |pairs|
    decreases |pairs|
  {
    if pairs != [] { ValidatedLength(pairs[..|pairs| - 1]); }
  }

  /** `seed_oracle` up to its registry: nothing is written before the whole list is validated. */
  method SeedOracle(storage: StorageBuilder, settings: seq<nat>, pairs: seq<PairConfig>) returns (ok: bool)
    requires |settings| == 8
    modifies storage
    ensures ok == Seeded(old(storage.entries), settings, pairs).Some?
    ensures storage.entries == if ok then Seeded(old(storage.entries), settings, pairs).value else old(storage.entries)
  {
    hide Acceptable, WithPair;
    var valid: seq<Pair> := [];
    for k := 0 to |pairs|
      invariant Validated(pairs[..k]) == Some(valid) && storage.entries == old(storage.entries)
    {
      assert pairs[..k + 1][..k] == pairs[..k];
      if !Acceptable(valid, pairs[k]) {
        RefusedStays(pairs, k + 1);
        return false;
      }
      AcceptableResolves(valid, pairs[k]);
      valid := valid + [Pair(AssetBytes(pairs[k].base).value, AssetBytes(pairs[k].quote).value)];
    }
    assert pairs[..|pairs|] == pairs;
    ValidatedLength(pairs);
    for n := 0 to 8
      invariant storage.entries == WithSettings(old(storage.entries), settings, n)
    {
      storage.Set(Direct(n), Word(settings[n]));
    }
    storage.Set(Direct(8), Word(|pairs|));
    ghost var e := storage.entries;
    for n := 0 to |pairs|
      invariant storage.entries == WithPairs(e, pairs, valid, n)
    {
      WritePair(storage, pairs[n], valid[n], n + 1);
    }
    return true;
  }

  lemma AcceptableResolves(accepted: seq<Pair>, p: PairConfig)
    requires Acceptable(accepted, p)
    ensures AssetBytes(p.base).Some? && AssetBytes(p.quote).Some?
  {
  }

  method WritePair(storage: StorageBuilder, p: PairConfig, pair: Pair, k: nat)
    modifies storage
    ensures storage.entries == WithPair(old(storage.entries), p, pair, k)
  {
    var h := PairOf(pair.base, pair.quote);
    storage.Set(Ordinal(h), Word(k));
    storage.Set(Mapped(h, 11), Word(if p.voteTarget then 1 else 0));
    storage.Set(ByIndex(k), Word(FromBytes(pair.base)));
    storage.Set(After(ByIndex(k)), Word(FromBytes(pair.quote)));
    if p.rate != 0 {
      storage.Set(Mapped(IndexKey(k), 12), Word(p.rate));
      storage.Set(Mapped(IndexKey(k), 13), Word(p.block));
      storage.Set(Mapped(IndexKey(k), 14), Word(p.timestamp));
    }
  }

  lemma {:induction false} RefusedStays(pairs: seq<PairConfig>, n: nat)
    requires n <= |pairs| && Validated(pairs[..n]).None?
    ensures Validated(pairs).None?
    decreases |pairs|
  {
    if n == |pairs| {
      assert pairs[..n] == pairs;
    } else {
      assert pairs[..|pairs| - 1][..n] == pairs[..n];
      RefusedStays(pairs[..|pairs| - 1], n);
    }
  }

  // ----- what validation guarantees -----

  predicate ValidRegistry(valid: seq<Pair>) {
    && (forall k :: 0 <= k < |valid| ==>
          valid[k].base != valid[k].quote && !(IsIso(FromBytes(valid[k].base)) && valid[k].quote == NativeBytes()))
    && (forall j, k :: 0 <= j < k < |valid| ==>
      PairBytes(valid[j].base, valid[j].quote) != PairBytes(valid[k].base, valid[k].quote))
  }

  /**
   The list is accepted exactly when every entry names two assets with different bytes, none
   is an ISO/native pair, and no pair's bytes repeat.
   */
  lemma {:induction false} AcceptedExactlyWhen(pairs: seq<PairConfig>)
    ensures Validated(pairs).Some? <==>
              && (forall k :: 0 <= k < |pairs| ==> AssetBytes(pairs[k].base).Some? && AssetBytes(pairs[k].quote).Some?)
              && ValidRegistry(Resolved(pairs))
    ensures Validated(pairs).Some? ==> Validated(pairs).value == Resolved(pairs)
    decreases |pairs|
  {
    hide IsIso, AssetBytes, FromBytes, AtMost;
    if pairs != [] {
      var rest := pairs[..|pairs| - 1];
      var p := pairs[|pairs| - 1];
      AcceptedExactlyWhen(rest);
      assert pairs == rest + [p];
      assert Resolved(pairs) == Resolved(rest) + [ResolvedPair(p)];
      ResolvedLength(rest);
      if ValidRegistry(Resolved(pairs)) { RegistryPrefix(Resolved(rest), ResolvedPair(p)); }
      if ValidRegistry(Resolved(rest)) { RegistryGrows(Resolved(rest), p); }
    }
  }

  /** A pair's addresses; an unreadable asset reads as the native one, and is refused anyway. */
  function ResolvedPair(p: PairConfig): Pair {
    Pair(if AssetBytes(p.base).Some? then AssetBytes(p.base).value else NativeBytes(),
         if AssetBytes(p.quote).Some? then AssetBytes(p.quote).value else NativeBytes())
  }

  function Resolved(pairs: seq<PairConfig>): seq<Pair> {
    if pairs == [] then [] else Resolved(pairs[..|pairs| - 1]) + [ResolvedPair(pairs[|pairs| - 1])]
  }

  lemma {:induction false} ResolvedLength(pairs: seq<PairConfig>)
    ensures |Resolved(pairs)| == |pairs|
    decreases |pairs|
  {
    if pairs != [] { ResolvedLength(pairs[..|pairs| - 1]); }
  }

  lemma RegistryPrefix(valid: seq<Pair>, pair: Pair)
    requires ValidRegistry(valid + [pair])
    ensures ValidRegistry(valid)
  {
    var all := valid + [pair];
    forall k | 0 <= k < |valid| ensures valid[k] == all[k] {}
  }

  lemma RegistryGrows(valid: seq<Pair>, p: PairConfig)
    requires ValidRegistry(valid)
    ensures AssetBytes(p.base).Some? && AssetBytes(p.quote).Some? ==>
              (Acceptable(valid, p) <==> ValidRegistry(valid + [ResolvedPair(p)]))
  {
    hide IsIso, AssetBytes, FromBytes, AtMost;
    if AssetBytes(p.base).Some? && AssetBytes(p.quote).Some? {
      var pair := ResolvedPair(p);
      var all := valid + [pair];
      assert all[|valid|] == pair && forall k :: 0 <= k < |valid| ==> all[k] == valid[k];
      if ValidRegistry(all) {
        forall k | 0 <= k < |valid|
          ensures PairBytes(valid[k].base, valid[k].quote) != PairBytes(pair.base, pair.quote) {
          assert all[k] == valid[k];
        }
      }
    }
  }

  // ----- the two indexes -----

  /** The key of the pair stored under an ordinal, as the contract makes it from the two addresses. */
  function PairAt(e: Entries, k: nat): Key {
    PairOf(ToBytes(WordAt(e, ByIndex(k)), 20), ToBytes(WordAt(e, After(ByIndex(k))), 20))
  }

  function KeyAt(valid: seq<Pair>, k: nat): Key
    requires 1 <= k <= |valid|
  {
    PairOf(valid[k - 1].base, valid[k - 1].quote)
  }

  /** What one pair's writes leave at the slots of the two indexes. */
  lemma PairWrites(e: Entries, p: PairConfig, pair: Pair, n: nat, k: nat, h: Key)
    requires n >= 1
    ensures var f := WithPair(e, p, pair, n);
            && WordAt(f, ByIndex(k)) == (if k == n then FromBytes(pair.base) else WordAt(e, ByIndex(k)))
            && WordAt(f, After(ByIndex(k))) == (if k == n then FromBytes(pair.quote) else WordAt(e, After(ByIndex(k))))
            && WordAt(f, Ordinal(h)) == (if h == PairOf(pair.base, pair.quote) then n else WordAt(e, Ordinal(h)))
            && (Ordinal(h) in f <==> h == PairOf(pair.base, pair.quote) || Ordinal(h) in e)
            && WordAt(f, Direct(8)) == WordAt(e, Direct(8))
  {
    hide PairOf, FromBytes;
  }

  /** The by-index map holds the pairs in their order. */
  lemma {:induction false} PairsWritten(e: Entries, pairs: seq<PairConfig>, valid: seq<Pair>, n: nat, k: nat)
    requires n <= |pairs| == |valid| && 1 <= k <= n
    ensures var f := WithPairs(e, pairs, valid, n);
            WordAt(f, ByIndex(k)) == FromBytes(valid[k - 1].base) &&
              WordAt(f, After(ByIndex(k))) == FromBytes(valid[k - 1].quote)
    decreases n
  {
    hide WithPair, WordAt, FromBytes, PairOf;
    PairWrites(WithPairs(e, pairs, valid, n - 1), pairs[n - 1], valid[n - 1], n, k, KeyAt(valid, k));
    if k < n { PairsWritten(e, pairs, valid, n - 1, k); }
  }

  /** Every asset of the list is a full address. */
  predicate FullAddresses(valid: seq<Pair>) {
    forall k :: 0 <= k < |valid| ==> |valid[k].base| == 20 && |valid[k].quote| == 20
  }

  /** The ordinal map holds each pair's number, if no two pairs share a key. */
  lemma {:induction false} NumbersWritten(e: Entries, pairs: seq<PairConfig>, valid: seq<Pair>, n: nat, k: nat)
    requires n <= |pairs| == |valid| && 1 <= k <= n && ValidRegistry(valid) && FullAddresses(valid)
    ensures WordAt(WithPairs(e, pairs, valid, n), Ordinal(KeyAt(valid, k))) == k
    decreases n
  {
    hide WithPair, WordAt, FromBytes, PairOf, IsIso, PairBytes;
    PairWrites(WithPairs(e, pairs, valid, n - 1), pairs[n - 1], valid[n - 1], n, k, KeyAt(valid, k));
    if k < n {
      NumbersWritten(e, pairs, valid, n - 1, k);
      KeysDiffer(valid, k, n);
    }
  }

  lemma KeysDiffer(valid: seq<Pair>, j: nat, k: nat)
    requires ValidRegistry(valid) && FullAddresses(valid) && 1 <= j < k <= |valid|
    ensures KeyAt(valid, j) != KeyAt(valid, k)
  {
    hide IsIso, AtMost, FromBytes;
    var x, y := valid[j - 1], valid[k - 1];
    assert |PairBytes(x.base, x.quote)| == 40 && |PairBytes(y.base, y.quote)| == 40;
  }

  /** A number in the ordinal map is that of a pair with just this key. */
  lemma {:induction false} OrdinalsWritten(e: Entries, pairs: seq<PairConfig>, valid: seq<Pair>, n: nat, h: Key)
    requires n <= |pairs| == |valid| && Ordinal(h) !in e
    ensures var f := WithPairs(e, pairs, valid, n);
            && WordAt(f, Direct(8)) == WordAt(e, Direct(8))
            && (Ordinal(h) in f ==> 1 <= WordAt(f, Ordinal(h)) <= n && KeyAt(valid, WordAt(f, Ordinal(h))) == h)
            && (Ordinal(h) !in f ==> WordAt(f, Ordinal(h)) == 0)
    decreases n
  {
    hide WithPair, PairOf, FromBytes;
    if n > 0 {
      PairWrites(WithPairs(e, pairs, valid, n - 1), pairs[n - 1], valid[n - 1], n, n, h);
      OrdinalsWritten(e, pairs, valid, n - 1, h);
    }
  }

  lemma {:induction false} SettingsLeaveOrdinals(e: Entries, settings: seq<nat>, n: nat, h: Key)
    requires n <= |settings|
    ensures Ordinal(h) in WithSettings(e, settings, n) <==> Ordinal(h) in e
    decreases n
  {
    if n > 0 { SettingsLeaveOrdinals(e, settings, n - 1, h); }
  }

  /** Both maps, read as the contract reads them, are inverses over 1 to n. */
  ghost predicate AreInverse(f: Entries, n: nat) {
    && (forall k: nat :: 1 <= k <= n ==> WordAt(f, Ordinal(PairAt(f, k))) == k)
    && (forall h :: Ordinal(h) in f ==> 1 <= WordAt(f, Ordinal(h)) <= n && PairAt(f, WordAt(f, Ordinal(h))) == h)
  }

  /** Every stored pair has two different assets, and native/ISO pairs are stored native first. */
  ghost predicate WellOriented(f: Entries, n: nat) {
    forall k: nat :: 1 <= k <= n ==>
      && WordAt(f, ByIndex(k)) != WordAt(f, After(ByIndex(k)))
      && !(IsIso(WordAt(f, ByIndex(k))) && WordAt(f, After(ByIndex(k))) == NATIVE)
  }

  predicate NoBlanks(pairs: seq<PairConfig>) {
    forall k :: 0 <= k < |pairs| ==> Blankless(Trimmed(pairs[k].base)) && Blankless(Trimmed(pairs[k].quote))
  }

  ghost predicate NoOrdinals(e: Entries) {
    forall h :: Ordinal(h) !in e
  }

  /** An asset is a full address exactly when its text has no white space inside. */
  lemma AssetFullExactlyWhen(text: string)
    requires AssetBytes(text).Some?
    ensures |AssetBytes(text).value| <= 20
    ensures |AssetBytes(text).value| == 20 <==> Blankless(Trimmed(text))
  {
    hide Trimmed, Read, ToBytes, Bcd, Decimal;
    var t := Trimmed(text);
    if Lower(t) == "rudis" || Lower(t) == "coen" || Lower(t) == "native" {
      NameHasNoBlank(t);
    } else if HasPrefix(t) {
      FullExactlyWhen(t, 20);
    }
  }

  lemma NameHasNoBlank(t: string)
    requires Lower(t) == "rudis" || Lower(t) == "coen" || Lower(t) == "native"
    ensures Blankless(t)
  {
    hide Lower;
    LowerKeepsBlanks(t);
    BlanklessCounts(t);
    BlanklessCounts("rudis");
    BlanklessCounts("coen");
    BlanklessCounts("native");
  }

  lemma FullExactly(pairs: seq<PairConfig>)
    requires Validated(pairs).Some? && |Validated(pairs).value| == |pairs|
    ensures FullAddresses(Validated(pairs).value) <==> NoBlanks(pairs)
    ensures forall k :: 0 <= k < |pairs| ==>
            |Validated(pairs).value[k].base| <= 20 && |Validated(pairs).value[k].quote| <= 20
  {
    hide Acceptable, AssetBytes, ValidRegistry, Trimmed, Blankless, Validated, Resolved;
    AcceptedExactlyWhen(pairs);
    forall k | 0 <= k < |pairs|
      ensures var v := Validated(pairs).value[k];
              && |v.base| <= 20 && |v.quote| <= 20
              && (|v.base| == 20 <==> Blankless(Trimmed(pairs[k].base)))
              && (|v.quote| == 20 <==> Blankless(Trimmed(pairs[k].quote)))
    {
      ResolvedAt(pairs, k);
      AssetFullExactlyWhen(pairs[k].base);
      AssetFullExactlyWhen(pairs[k].quote);
    }
  }

  lemma {:induction false} ResolvedAt(pairs: seq<PairConfig>, k: nat)
    requires k < |pairs|
    ensures k < |Resolved(pairs)| == |pairs| && Resolved(pairs)[k] == ResolvedPair(pairs[k])
    decreases |pairs|
  {
    hide ResolvedPair;
    ResolvedLength(pairs);
    if k < |pairs| - 1 { ResolvedAt(pairs[..|pairs| - 1], k); } else { ResolvedLength(pairs[..|pairs| - 1]); }
  }

  /** The key made from a stored pair is the pair's own, if its addresses are full. */
  lemma StoredKey(f: Entries, valid: seq<Pair>, k: nat)
    requires 1 <= k <= |valid| && WordAt(f, ByIndex(k)) == FromBytes(valid[k - 1].base)
    requires WordAt(f, After(ByIndex(k))) == FromBytes(valid[k - 1].quote)
    ensures |valid[k - 1].base| == 20 && |valid[k - 1].quote| == 20 ==> PairAt(f, k) == KeyAt(valid, k)
    ensures |valid[k - 1].base| <= 20 && |valid[k - 1].quote| <= 20 && PairAt(f, k) == KeyAt(valid, k) ==>
              |valid[k - 1].base| == 20 && |valid[k - 1].quote| == 20
  {
    hide AtMost, FromBytes, ToBytes;
    var base, quote := valid[k - 1].base, valid[k - 1].quote;
    BytesRoundTrip(base);
    BytesRoundTrip(quote);
    var x, y := ToBytes(FromBytes(base), 20), ToBytes(FromBytes(quote), 20);
    assert |PairBytes(x, y)| == 40 && |PairBytes(base, quote)| == |base| + |quote|;
  }

  /**
   For every accepted list on fresh storage, the ordinal map and the by-index map are mutual
   inverses over 1 to the pair count if and only if no asset's text has white space inside.
   */
  lemma InverseExactlyWhen(e: Entries, settings: seq<nat>, pairs: seq<PairConfig>)
    requires |settings| == 8 && Seeded(e, settings, pairs).Some? && NoOrdinals(e)
    ensures var f := Seeded(e, settings, pairs).value;
            WordAt(f, Direct(8)) == |pairs| && (AreInverse(f, |pairs|) <==> NoBlanks(pairs))
  {
    hide WithPairs, WithSettings, IsIso, Acceptable, NoBlanks, PairAt, KeyAt, WordAt, ValidRegistry, FullAddresses;
    ValidatedLength(pairs);
    AcceptedExactlyWhen(pairs);
    FullExactly(pairs);
    var valid := Validated(pairs).value;
    var start := WithSettings(e, settings, 8)[Direct(8) := Word(|pairs|)];
    var f := WithPairs(start, pairs, valid, |pairs|);
    assert WordAt(start, Direct(8)) == |pairs| by { CountIsWritten(start, |pairs|); }
    forall h ensures Ordinal(h) !in start { SettingsLeaveOrdinals(e, settings, 8, h); }
    OrdinalsWritten(start, pairs, valid, |pairs|, PairKey([]));
    if FullAddresses(valid) {
      FullIsInverse(start, pairs, valid);
    } else {
      ShortIsNoInverse(start, pairs, valid);
    }
  }

  lemma CountIsWritten(e: Entries, n: nat)
    requires Direct(8) in e && e[Direct(8)] == Word(n)
    ensures WordAt(e, Direct(8)) == n
  {
  }

  lemma FullIsInverse(e: Entries, pairs: seq<PairConfig>, valid: seq<Pair>)
    requires |pairs| == |valid| && ValidRegistry(valid) && FullAddresses(valid) && NoOrdinals(e)
    ensures AreInverse(WithPairs(e, pairs, valid, |pairs|), |pairs|)
  {
    hide WithPairs, ValidRegistry, PairAt, KeyAt, WordAt;
    var f := WithPairs(e, pairs, valid, |pairs|);
    forall k: nat | 1 <= k <= |pairs| ensures PairAt(f, k) == KeyAt(valid, k) && WordAt(f, Ordinal(PairAt(f, k))) == k {
      PairsWritten(e, pairs, valid, |pairs|, k);
      NumbersWritten(e, pairs, valid, |pairs|, k);
      StoredKey(f, valid, k);
    }
    forall h | Ordinal(h) in f ensures 1 <= WordAt(f, Ordinal(h)) <= |pairs| && PairAt(f, WordAt(f, Ordinal(h))) == h {
      OrdinalsWritten(e, pairs, valid, |pairs|, h);
    }
  }

  lemma ShortIsNoInverse(e: Entries, pairs: seq<PairConfig>, valid: seq<Pair>)
    requires |pairs| == |valid| && !FullAddresses(valid) && NoOrdinals(e)
    requires forall k :: 0 <= k < |valid| ==> |valid[k].base| <= 20 && |valid[k].quote| <= 20
    ensures !AreInverse(WithPairs(e, pairs, valid, |pairs|), |pairs|)
  {
    hide WithPairs, PairAt, KeyAt, WordAt;
    var f := WithPairs(e, pairs, valid, |pairs|);
    var k :| 0 <= k < |valid| && (|valid[k].base| != 20 || |valid[k].quote| != 20);
    PairsWritten(e, pairs, valid, |pairs|, k + 1);
    StoredKey(f, valid, k + 1);
    OrdinalsWritten(e, pairs, valid, |pairs|, PairAt(f, k + 1));
    assert WordAt(f, Ordinal(PairAt(f, k + 1))) != k + 1;
  }

  /** Without white space, every stored pair has two different assets, and native/ISO pairs are native first. */
  lemma StoredPairsAreOriented(e: Entries, settings: seq<nat>, pairs: seq<PairConfig>)
    requires |settings| == 8 && Seeded(e, settings, pairs).Some? && NoBlanks(pairs)
    ensures WellOriented(Seeded(e, settings, pairs).value, |pairs|)
  {
    hide WithPairs, WithSettings, Acceptable, WordAt, IsIso, FromBytes, ToBytes, NoBlanks;
    ValidatedLength(pairs);
    AcceptedExactlyWhen(pairs);
    FullExactly(pairs);
    var valid := Validated(pairs).value;
    var start := WithSettings(e, settings, 8)[Direct(8) := Word(|pairs|)];
    var f := WithPairs(start, pairs, valid, |pairs|);
    forall k: nat | 1 <= k <= |pairs|
      ensures && WordAt(f, ByIndex(k)) != WordAt(f, After(ByIndex(k)))
              && !(IsIso(WordAt(f, ByIndex(k))) && WordAt(f, After(ByIndex(k))) == NATIVE)
    {
      PairsWritten(start, pairs, valid, |pairs|, k);
      BytesRoundTrip(valid[k - 1].base);
      BytesRoundTrip(valid[k - 1].quote);
    }
  }

  // ----- white space inside -----

  /** The zero address with two digits replaced by blanks. */
  function BlankedNative(): string {
    "0x" + (Repeated("00", 18) + "  00")
  }

  /** With it, a pair of an ISO base and the native asset as quote gets past the orientation check. */
  lemma BlanksBreakOrientation(e: Entries, settings: seq<nat>)
    requires |settings| == 8 && NoOrdinals(e)
    ensures var pairs := [PairConfig("840", BlankedNative(), true, 0, 0, 0)];
            && Seeded(e, settings, pairs).Some?
            && !WellOriented(Seeded(e, settings, pairs).value, 1) && !AreInverse(Seeded(e, settings, pairs).value, 1)
  {
    hide AreInverse, WithSettings, WithPairs, IsIso, AssetBytes, BlankedNative, FromBytes, ToBytes, WordAt, Trimmed;
    var p := PairConfig("840", BlankedNative(), true, 0, 0, 0);
    var pairs := [p];
    BlankedReads();
    IsoReads();
    OneAccepted(p);
    BlanksInside();
    InverseExactlyWhen(e, settings, pairs);
    var valid := Validated(pairs).value;
    PairsWritten(WithSettings(e, settings, 8)[Direct(8) := Word(1)], pairs, valid, 1, 1);
  }

  lemma OneAccepted(p: PairConfig)
    requires AssetBytes(p.base).Some? && AssetBytes(p.quote).Some?
    requires |AssetBytes(p.base).value| == 20 && |AssetBytes(p.quote).value| == 19
    ensures Validated([p]) == Some([Pair(AssetBytes(p.base).value, AssetBytes(p.quote).value)])
  {
    hide AssetBytes, IsIso, ToBytes;
    assert [p][..0] == [];
    assert |NativeBytes()| == 20;
    assert Acceptable([], p);
    assert Validated([]) == Some([]);
    var pair := Pair(AssetBytes(p.base).value, AssetBytes(p.quote).value);
    assert [] + [pair] == [pair];
  }

  lemma BlanksInside()
    ensures !NoBlanks([PairConfig("840", BlankedNative(), true, 0, 0, 0)])
  {
    hide AssetBytes, BlankedNative, Trimmed, Blankless;
    BlankedReads();
    AssetFullExactlyWhen(BlankedNative());
    var pairs := [PairConfig("840", BlankedNative(), true, 0, 0, 0)];
    assert !Blankless(Trimmed(pairs[0].quote));
  }

  lemma BlankedReads()
    ensures Trimmed(BlankedNative()) == BlankedNative()
    ensures AssetBytes(BlankedNative()) == Some(Copies(0, 19)) && FromBytes(Copies(0, 19)) == NATIVE
  {
    hide Repeated, Pairs, Lower, WithoutPrefix;
    var rest := Repeated("00", 18) + "  00";
    var t := BlankedNative();
    RepeatedPlain("00", 18);
    LowerPlain(t);
    NothingToRemove(rest);
    PrefixIsRemoved("0x", rest);
    LowerPlain("0x");
    ZerosBehindBlanks();
    RepeatedReads("00", 0, 18, "  00");
    assert Copies(0, 18) + [0] == Copies(0, 19);
    ZerosAreNative(19);
  }

  lemma ZerosBehindBlanks()
    ensures Pairs("  00") == Some([0])
  {
    assert "  00"[1..] == " 00" && " 00"[1..] == "00" && "00"[2..] == "" && [0] + [] == [0];
  }

  lemma {:induction false} ZerosAreNative(n: nat)
    ensures FromBytes(Copies(0, n)) == NATIVE
    decreases n
  {
    if n > 0 {
      ZerosAreNative(n - 1);
      assert Copies(0, n)[..n - 1] == Copies(0, n - 1);
    }
  }

  lemma IsoReads()
    ensures AssetBytes("840").Some? && |AssetBytes("840").value| == 20 && IsIso(FromBytes(AssetBytes("840").value))
  {
    hide ToBytes, FromBytes, IsIso, Bcd, Lower, Decimal, Pow256;
    assert Trimmed("840") == "840";
    LowerPlain("840");
    CodeReads();
    NibblesOf(8, 4, 0);
    CodeFits();
    NumberRoundTrip(ISO_MARKER + Bcd(840), 20);
  }

  lemma CodeReads()
    ensures IsDecimal("840") && Decimal("840") == 840
  {
    assert "840"[..2] == "84" && "84"[..1] == "8" && "8"[..0] == "";
    assert Decimal("8") == 8 && Decimal("84") == 84;
  }

  lemma CodeFits()
    ensures ISO_MARKER + Bcd(840) < Pow256(20)
  {
    assert Pow256(0) == 1 && Pow256(1) == 256 && Pow256(2) == 65536 && Pow256(3) == 16777216;
    PowersIncrease(3, 20);
  }
}
