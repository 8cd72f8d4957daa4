/** The closure flush: two-phase retirement, advancing the checkpoint, pruning. */
module OcompClosure {
  import opened Basics
  import opened OcompTypes
  import opened OcompWorld
  import opened OcompReducer
  import opened OcompSpool
  import opened OcompObserver
  import opened OcompInvariant
  import opened OcompRefresh

  // ----- closed requests -----

  /** A closed request with a mapped job still has that job, and the job is terminal. */
  lemma ClosedJobPresent(policy: Policy, b: Books, i: Hash)
    requires BooksOk(policy, b) && i in b.intentJobs && RequestClosed(b, i)
    ensures b.intentJobs[i] in b.jobs
    ensures b.reducer.jobs[b.intentJobs[i]].terminal.Some?
  {
    if b.intentJobs[i] in b.reducer.jobs {
      assert JobOk(policy, b.reducer.jobs[b.intentJobs[i]]);
    }
  }

  /** A closed request is settled in the canonical state the maps were refreshed against. */
  lemma ClosedIsTerminal(policy: Policy, w: World, viewed: nat, b: Books, i: Hash)
    requires BooksOk(policy, b) && ViewOk(w, viewed, b) && RequestClosed(b, i)
    ensures Terminal(w.records(viewed, i).status)
  {
    if i in b.intentJobs {
      ClosedJobPresent(policy, b, i);
      assert b.intentJobs[i].intent == i;
    }
  }

  /** No request that the flush target leaves behind is open. */
  lemma BehindTargetClosed(c: Config, w: World, s: Sys, i: Hash)
    requires Inv(c, w, s) && i in s.books.requests && s.books.requests[i].blockNumber <= FlushTarget(s).number
    ensures RequestClosed(s.books, i)
  {
    hide ViewOk, EffectsOk, TrackedOk, VotesOk, DiskOk, AllSafe, TargetOk, BooksOk;
    var order := SortedKeys(s.books.requests.Keys);
    var low := LowestOpen(s.books, order);
    assert i in order;
    if low.Some? {
      assert Scanned(w, s.disk.closure.number, s.scanned.number, low.value, s.books.requests[low.value]);
    }
  }

  /** Every request that the flush target leaves behind is settled. */
  lemma TargetSettled(c: Config, w: World, s: Sys)
    requires Inv(c, w, s)
    ensures SettledIn(w, s.disk.closure.number, FlushTarget(s).number, s.viewed)
  {
    hide EffectsOk, TrackedOk, VotesOk, DiskOk, AllSafe, TargetOk, BooksOk, ViewOk, RequestClosed, FlushTarget;
    TargetFacts(c, w, s);
    forall h: nat | s.disk.closure.number < h <= FlushTarget(s).number && w.frames(h).observation.Some?
      ensures Terminal(w.records(s.viewed, w.frames(h).observation.value.intentId).status)
    {
      assert RequestKept(w, h, s.books.requests);
      var i := w.frames(h).observation.value.intentId;
      BehindTargetClosed(c, w, s, i);
      ClosedIsTerminal(c.policy, w, s.viewed, s.books, i);
    }
  }

  /** The target is a scanned block, at or above the current checkpoint. */
  lemma TargetFacts(c: Config, w: World, s: Sys)
    requires Inv(c, w, s)
    ensures s.disk.closure.number <= FlushTarget(s).number <= s.scanned.number <= s.disk.projected
    ensures FlushTarget(s).hash == w.frames(FlushTarget(s).number).hash
    ensures Linked(w, s.disk.closure.number, s.scanned.number)
  {
    hide ViewOk, EffectsOk, TrackedOk, VotesOk, DiskOk, AllSafe, TargetOk, BooksOk;
    var low := LowestOpen(s.books, SortedKeys(s.books.requests.Keys));
    if low.Some? {
      var l := s.books.requests[low.value];
      assert Scanned(w, s.disk.closure.number, s.scanned.number, low.value, l);
      assert w.frames(l.blockNumber).parent == w.frames(l.blockNumber - 1).hash;
    }
  }

  // ----- preparing -----

  /** The offer of request `i`, if it is still in the spool, has its retirement recorded. */
  ghost predicate Prepared(b: Books, d: Disk, i: Hash) {
    i in b.intentJobs && b.intentJobs[i] in b.jobs && KeyOf(OfferOf(b.jobs[b.intentJobs[i]])) in d.offers ==>
      KeyOf(OfferOf(b.jobs[b.intentJobs[i]])) in d.retirements
  }

  ghost predicate Closing(b: Books, i: Hash, closed: nat) {
    i in b.requests && b.requests[i].blockNumber <= closed && RequestClosed(b, i)
  }

  lemma PrepareWrites(d: Disk, ref: OfferRef, closedThrough: nat)
    ensures var p := PlanPrepare(d, ref, closedThrough);
            var e := ApplyAll(d, p.writes);
            && SpoolOnly(p.writes)
            && e.offers == d.offers
            && (forall k :: k in d.retirements ==> k in e.retirements)
            && (p.ok && KeyOf(ref) in d.offers ==> KeyOf(ref) in e.retirements)
  {
    PlanOfTwo(d, PlanPrepare(d, ref, closedThrough).writes);
    var ws := PlanPrepare(d, ref, closedThrough).writes;
    if |ws| == 1 { assert ws[..1] == ws; }
  }

  lemma {:induction false} PrepareKeeps(c: Config, w: World, s: Sys, order: seq<Hash>, closed: nat)
    requires WorldOk(w) && Inv(c, w, s)
    ensures var f := PrepareAll(c, s, order, closed);
            && FlowOk(c, w, f) && (f.Go? || f.Halt?)
            && OnlyWrote(s, f.s)
            && f.s.disk.offers == s.disk.offers
            && (f.Go? ==> forall i :: i in order && Closing(s.books, i, closed) ==> Prepared(s.books, f.s.disk, i))
    decreases |order|
  {
    hide Inv, CoreOk, WorldOk, PlanPrepare, RequestClosed, KeyOf, AllSafe, DiskOk;
    InvParts(c, w, s);
    if order != [] {
      var rest := order[..|order| - 1];
      var i := order[|order| - 1];
      PrepareKeeps(c, w, s, rest, closed);
      var before := PrepareAll(c, s, rest, closed);
      if before.Go? {
        var b := before.s.books;
        InvParts(c, w, before.s);
        if Closing(b, i, closed) && i in b.intentJobs {
          MappedJobPresent(c, w, before.s, i);
          var job := b.jobs[b.intentJobs[i]];
          PreparePlanSafe(w, before.s.disk, OfferOf(job), closed);
          PrepareWrites(before.s.disk, OfferOf(job), closed);
          PlanKeeps(c, w, before.s, PlanPrepare(before.s.disk, OfferOf(job), closed));
        }
        assert forall x :: x in order ==> x in rest || x == i;
      }
    }
  }

  lemma MappedJobPresent(c: Config, w: World, s: Sys, i: Hash)
    requires Inv(c, w, s) && i in s.books.intentJobs && RequestClosed(s.books, i)
    ensures i in s.books.requests && s.books.intentJobs[i] in s.books.jobs
    ensures s.books.jobs[s.books.intentJobs[i]].spec.cursor == s.books.requests[i].blockNumber
  {
    hide ScanOk, ViewOk, EffectsOk, TrackedOk, VotesOk, DiskOk, AllSafe, TargetOk, RequestClosed, ReducerOk;
    ClosedJobPresent(c.policy, s.books, i);
  }

  // ----- completing -----

  /** Every record at or below `height` has its retirement recorded. */
  ghost predicate Covered(d: Disk, height: nat) {
    forall k :: k in d.offers && k.cursor <= height ==> k in d.retirements
  }

  /** On a sound disk a removal writes nothing, or erases exactly its record. */
  lemma CompleteShape(w: World, d: Disk, k: Key, closed: nat)
    requires DiskOk(w, d) && k in d.retirements
    ensures var p := PlanComplete(d, k, closed);
            p.writes == [] || (p.ok && p.writes == Erasure(k) && d.retirements[k].closedThrough <= closed)
  {
    hide RestartSafe, NothingLeaks, Anchored, FinishedOk, SettledIn;
  }

  lemma CompleteWrites(w: World, d: Disk, k: Key, closed: nat, height: nat)
    requires DiskOk(w, d) && closed <= d.closure.number && k in d.retirements && Covered(d, height)
    ensures var p := PlanComplete(d, k, closed);
            SpoolOnly(p.writes) && SafePlan(w, d, p) && Covered(ApplyAll(d, p.writes), height)
  {
    hide DiskOk, PlanComplete, AllSafe;
    CompletePlanSafe(w, d, k, closed);
    CompleteShape(w, d, k, closed);
  }

  lemma {:induction false} CompleteKeeps(c: Config, w: World, s: Sys, listing: seq<Key>, closed: nat, height: nat)
    requires WorldOk(w) && CoreOk(c, w, s) && closed <= s.disk.closure.number && Covered(s.disk, height)
    ensures var f := CompleteAll(s, listing, closed);
            && CoreOk(c, w, f.s) && (f.Go? || f.Halt?)
            && (Inv(c, w, s) ==> Inv(c, w, f.s))
            && OnlyWrote(s, f.s) && Covered(f.s.disk, height)
    decreases |listing|
  {
    hide Inv, CoreOk, WorldOk, PlanComplete, AllSafe, DiskOk, Covered;
    if listing != [] {
      var rest := listing[..|listing| - 1];
      CompleteKeeps(c, w, s, rest, closed, height);
      var before := CompleteAll(s, rest, closed);
      var k := listing[|listing| - 1];
      if before.Go? && k in before.s.disk.retirements {
        CoreDisk(c, w, before.s);
        CompleteWrites(w, before.s.disk, k, closed, height);
        PlanKeeps(c, w, before.s, PlanComplete(before.s.disk, k, closed));
        SpoolPlanKeeps(c, w, before.s, PlanComplete(before.s.disk, k, closed).writes);
      }
    }
  }

  lemma CoreDisk(c: Config, w: World, s: Sys)
    requires CoreOk(c, w, s)
    ensures DiskOk(w, s.disk)
  {
    hide DiskOk, AllSafe, EffectsOk;
  }

  // ----- advancing -----

  /**
   Before the checkpoint advances, every offer it would leave behind has its retirement
   recorded: the offer belongs to a tracked request, which is closed, so its job is there
   and was prepared.
   */
  lemma AdvanceIsCovered(c: Config, w: World, s: Sys, target: nat, d: Disk)
    requires WorldOk(w) && Inv(c, w, s)
    requires target <= s.scanned.number
    requires forall i :: i in s.books.requests && s.books.requests[i].blockNumber <= target ==>
               RequestClosed(s.books, i) && Prepared(s.books, d, i)
    requires d.offers == s.disk.offers
    requires forall k :: k in s.disk.retirements ==> k in d.retirements
    ensures Covered(d, target)
  {
    hide Inv, CoreOk, RequestClosed, DiskOk;
    InvParts(c, w, s);
    forall k | k in d.offers && k.cursor <= target ensures k in d.retirements {
      OfferFacts(w, s.disk, k);
      if s.disk.closure.number < k.cursor {
        TrackedOffer(c, w, s, k);
        RequestOfOffer(c, w, s, k);
      }
    }
  }

  lemma OfferFacts(w: World, d: Disk, k: Key)
    requires DiskOk(w, d) && k in d.offers
    ensures Witnessed(w, d.projected, k, d.offers[k])
    ensures k.cursor <= d.closure.number ==> k in d.retirements
  {
  }

  /** An offer above the checkpoint belongs to a tracked request. */
  lemma TrackedOffer(c: Config, w: World, s: Sys, k: Key)
    requires Inv(c, w, s) && s.disk.closure.number < k.cursor <= s.scanned.number
    requires k in s.disk.offers && Witnessed(w, s.disk.projected, k, s.disk.offers[k])
    ensures k.intent in s.books.requests && s.books.requests[k.intent].blockNumber == k.cursor
  {
    hide BooksOk, ViewOk, EffectsOk, TrackedOk, VotesOk, DiskOk, AllSafe, TargetOk;
    assert RequestKept(w, k.cursor, s.books.requests);
  }

  /** It is the offer of that request's job. */
  lemma RequestOfOffer(c: Config, w: World, s: Sys, k: Key)
    requires WorldOk(w) && Inv(c, w, s) && k in s.disk.offers && s.disk.closure.number < k.cursor <= s.scanned.number
    requires Witnessed(w, s.disk.projected, k, s.disk.offers[k])
    requires k.intent in s.books.requests && s.books.requests[k.intent].blockNumber == k.cursor &&
             RequestClosed(s.books, k.intent)
    ensures k.intent in s.books.intentJobs && s.books.intentJobs[k.intent] in s.books.jobs
    ensures KeyOf(OfferOf(s.books.jobs[s.books.intentJobs[k.intent]])) == k
  {
    hide ScanOk, EffectsOk, TrackedOk, VotesOk, DiskOk, AllSafe, TargetOk, WorldOk, ReducerOk, RequestClosed;
    HeightFixed(w, k.intent, s.viewed, s.disk.projected);
    FinalizedEitherWay(w, k.intent, s.viewed, s.disk.projected);
    ClosedIsKnown(c.policy, s.books, k.intent);
    if k.intent in s.books.intentJobs { ClosedJobPresent(c.policy, s.books, k.intent); }
  }

  lemma ClosedIsKnown(policy: Policy, b: Books, i: Hash)
    requires BooksOk(policy, b) && RequestClosed(b, i)
    ensures i in b.intentJobs || i in b.materialized
  {
  }

  /** A record finalized at one height is never terminal without a finalized job at another. */
  lemma FinalizedEitherWay(w: World, i: Hash, a: nat, b: nat)
    requires WorldOk(w) && w.records(b, i).finalized.Some?
    ensures !(Terminal(w.records(a, i).status) && w.records(a, i).finalized.None?)
  {
    if a <= b {
      assert Progress(w.records(a, i), w.records(b, i));
    } else {
      assert Progress(w.records(b, i), w.records(a, i));
    }
  }

  lemma AdvanceCore(c: Config, w: World, s: Sys, target: Checkpoint)
    requires WorldOk(w) && CoreOk(c, w, s) && Covered(s.disk, target.number)
    requires SettledIn(w, s.disk.closure.number, target.number, s.viewed)
    requires s.disk.closure.number < target.number <= s.disk.projected && target.hash == w.frames(target.number).hash
    ensures CoreOk(c, w, WriteAll(s, [AdvanceClosure(target, s.viewed)]))
    ensures WriteAll(s, [AdvanceClosure(target, s.viewed)]).disk ==
              s.disk.(closure := target, seen := if s.disk.seen < s.viewed then s.viewed else s.disk.seen)
    ensures Covered(WriteAll(s, [AdvanceClosure(target, s.viewed)]).disk, target.number)
  {
    hide DiskOk, AllSafe, EffectsOk, WorldOk;
    SingleSafe(w, s.disk, AdvanceClosure(target, s.viewed));
    JournalGrows(w, s, [AdvanceClosure(target, s.viewed)]);
  }

  // ----- pruning -----

  lemma PruneOneBooks(policy: Policy, b: Books, i: Hash)
    requires BooksOk(policy, b) && i in b.requests && RequestClosed(b, i)
    ensures BooksOk(policy, PruneOne(b, i))
    ensures i in b.intentJobs ==> b.intentJobs[i] in b.jobs && b.reducer.jobs[b.intentJobs[i]].terminal.Some?
  {
    hide RequestClosed, ReducerOk, JobMapsOk, ExportsOk, PruneOne;
    PruneReducer(b, i);
    PruneMaps(b, i);
    PruneExports(b, i);
    if i in b.intentJobs { ClosedJobPresent(policy, b, i); }
  }

  lemma PruneMaps(b: Books, i: Hash)
    requires JobMapsOk(b) && i in b.requests
    ensures JobMapsOk(PruneOne(b, i))
  {
    if i in b.intentJobs {
      var j := b.intentJobs[i];
      forall k | k in b.jobs && k != j ensures k.intent != i {}
    } else {
      forall k | k in b.jobs ensures k.intent != i {}
    }
  }

  lemma PruneExports(b: Books, i: Hash)
    requires JobMapsOk(b) && ExportsOk(b) && i in b.requests
    ensures ExportsOk(PruneOne(b, i))
  {
    forall o | o in b.intentJobs && o != i ensures i in b.intentJobs ==> b.intentJobs[o] != b.intentJobs[i] {}
  }

  lemma PruneReducer(b: Books, i: Hash)
    requires ReducerOk(b.reducer)
    ensures ReducerOk(PruneOne(b, i).reducer) && PruneOne(b, i).reducer.mode == b.reducer.mode
  {
    hide JobOk;
  }

  lemma PruneOneView(policy: Policy, w: World, viewed: nat, b: Books, i: Hash)
    requires BooksOk(policy, b) && ViewOk(w, viewed, b) && i in b.requests
    ensures ViewOk(w, viewed, PruneOne(b, i))
  {
    hide ReducerOk;
  }

  /** Pruning one request does not open or close another. */
  lemma PruneOneOthers(policy: Policy, b: Books, i: Hash, o: Hash)
    requires BooksOk(policy, b) && i in b.requests && o in b.requests && o != i
    ensures RequestClosed(PruneOne(b, i), o) == RequestClosed(b, o)
  {
    hide ReducerOk;
  }

  /** What pruning leaves of the jobs. */
  ghost predicate OnlyPruned(b: Books, to: Books, gone: set<Hash>) {
    && to.requests == b.requests - gone
    && (forall j :: j in to.jobs <==> j in b.jobs && j.intent !in gone)
    && (forall j :: j in to.jobs ==> to.jobs[j] == b.jobs[j])
    && (forall j :: j in to.reducer.jobs ==> j in b.reducer.jobs && to.reducer.jobs[j] == b.reducer.jobs[j])
    && to.acknowledged <= b.acknowledged
  }

  lemma PruneOneOnly(policy: Policy, b: Books, i: Hash)
    requires BooksOk(policy, b) && i in b.requests
    ensures OnlyPruned(b, PruneOne(b, i), {i})
  {
    hide ReducerOk;
  }

  lemma OnlyPrunedTrans(b: Books, m: Books, to: Books, gone: set<Hash>, i: Hash)
    requires OnlyPruned(b, m, gone) && OnlyPruned(m, to, {i})
    ensures OnlyPruned(b, to, gone + {i})
  {
    assert b.requests - (gone + {i}) == (b.requests - gone) - {i};
  }

  function Elements(xs: seq<Hash>): set<Hash> {
    set x | x in xs
  }

  lemma NonePruned(b: Books)
    ensures Elements([]) == {} && OnlyPruned(b, b, {})
  {
    assert b.requests - {} == b.requests;
  }

  lemma ElementsOf(xs: seq<Hash>)
    requires xs != []
    ensures Elements(xs) == Elements(xs[..|xs| - 1]) + {xs[|xs| - 1]}
  {
    assert xs == xs[..|xs| - 1] + [xs[|xs| - 1]];
  }

  lemma StillTracked(b: Books, to: Books, gone: seq<Hash>, i: Hash)
    requires OnlyPruned(b, to, Elements(gone)) && i in b.requests && i !in gone
    ensures i in to.requests
  {
  }

  lemma {:induction false} PruneKeeps(policy: Policy, w: World, s: Sys, closing: seq<Hash>)
    requires BooksOk(policy, s.books) && ViewOk(w, s.viewed, s.books)
    requires forall i :: i in closing ==> i in s.books.requests && RequestClosed(s.books, i)
    requires Distinct(closing)
    ensures var f := PruneAll(s, closing);
            && f.Go?
            && f.s == s.(books := f.s.books)
            && BooksOk(policy, f.s.books) && ViewOk(w, s.viewed, f.s.books)
            && OnlyPruned(s.books, f.s.books, Elements(closing))
            && (forall o :: o in s.books.requests && o !in closing ==>
              RequestClosed(f.s.books, o) == RequestClosed(s.books, o))
    decreases |closing|
  {
    hide BooksOk, ViewOk, RequestClosed, PruneOne, OnlyPruned, Elements;
    if closing == [] {
      NonePruned(s.books);
    } else {
      var rest := closing[..|closing| - 1];
      var i := closing[|closing| - 1];
      PruneKeeps(policy, w, s, rest);
      var before := PruneAll(s, rest).s;
      assert i in closing && i !in rest;
      ElementsOf(closing);
      StillTracked(s.books, before.books, rest, i);
      PruneOneBooks(policy, before.books, i);
      PruneOneView(policy, w, s.viewed, before.books, i);
      PruneOneOnly(policy, before.books, i);
      OnlyPrunedTrans(s.books, before.books, PruneOne(before.books, i), Elements(rest), i);
      forall o | o in s.books.requests && o !in rest ensures o in before.books.requests {
        StillTracked(s.books, before.books, rest, o);
      }
      PruneOneRest(policy, s.books, before.books, closing);
    }
  }

  /** The requests that are not pruned stay open or closed as they were. */
  lemma PruneOneRest(policy: Policy, b: Books, before: Books, closing: seq<Hash>)
    requires closing != [] && BooksOk(policy, before) && closing[|closing| - 1] in before.requests
    requires RequestClosed(before, closing[|closing| - 1])
    requires forall o :: o in b.requests && o !in closing[..|closing| - 1] ==>
             o in before.requests && RequestClosed(before, o) == RequestClosed(b, o)
    ensures forall o :: o in b.requests && o !in closing ==>
              RequestClosed(PruneOne(before, closing[|closing| - 1]), o) == RequestClosed(b, o)
  {
    hide BooksOk, RequestClosed, PruneOne;
    var i := closing[|closing| - 1];
    forall o | o in b.requests && o !in closing ensures RequestClosed(PruneOne(before, i), o) == RequestClosed(b, o) {
      assert i in closing;
      PruneOneOthers(policy, before, i, o);
    }
  }

  lemma {:induction false} ClosingFacts(b: Books, order: seq<Hash>, closed: nat)
    requires Distinct(order)
    ensures forall i :: i in ClosingIntents(b, order, closed) <==> i in order && Closing(b, i, closed)
    ensures Distinct(ClosingIntents(b, order, closed))
    decreases |order|
  {
    if order != [] {
      var rest := order[..|order| - 1];
      ClosingFacts(b, rest, closed);
      assert forall x :: x in order <==> x in rest || x == order[|order| - 1];
      assert order[|order| - 1] !in rest;
      var c := ClosingIntents(b, rest, closed);
      var last := order[|order| - 1];
      var all := ClosingIntents(b, order, closed);
      assert all == if Closing(b, last, closed) then c + [last] else c + [];
      forall x, y | 0 <= x < y < |all| ensures all[x] != all[y] {
        assert all[x] == c[x] && c[x] in c && c[x] in rest;
        if y < |c| { assert all[y] == c[y]; } else { assert all[y] == last; }
      }
    }
  }

  // ----- the flush -----

  lemma NoneBelow(c: Config, w: World, s: Sys, i: Hash)
    requires Inv(c, w, s) && i in s.books.requests
    ensures s.disk.closure.number < s.books.requests[i].blockNumber <= s.scanned.number
  {
    hide BooksOk, ViewOk, EffectsOk, TrackedOk, VotesOk, DiskOk, AllSafe, TargetOk;
    assert Scanned(w, s.disk.closure.number, s.scanned.number, i, s.books.requests[i]);
  }

  lemma NothingToPrune(c: Config, w: World, s: Sys)
    requires Inv(c, w, s)
    ensures PruneThrough(s, s.disk.closure.number) == Go(s)
  {
    hide Inv, RequestClosed;
    var order := SortedKeys(s.books.requests.Keys);
    ClosingFacts(s.books, order, s.disk.closure.number);
    var closing := ClosingIntents(s.books, order, s.disk.closure.number);
    if closing != [] {
      assert closing[0] in closing;
      NoneBelow(c, w, s, closing[0]);
    }
  }

  lemma FlushStays(c: Config, w: World, s: Sys, first: seq<Key>, second: seq<Key>)
    requires WorldOk(w) && Inv(c, w, s) && FlushTarget(s).number <= s.disk.closure.number
    ensures var f := Flush(c, s, first, second);
            FlowOk(c, w, f) && (f.Go? || f.Halt?) && (f.Go? ==> OnlyWrote(s, f.s))
  {
    hide Inv, CoreOk, WorldOk, PrepareAll, CompleteAll, PruneThrough, FlushTarget, DiskOk;
    var current := s.disk.closure;
    PrepareKeeps(c, w, s, SortedKeys(s.books.requests.Keys), current.number);
    var p := PrepareAll(c, s, SortedKeys(s.books.requests.Keys), current.number);
    if p.Go? {
      InvParts(c, w, p.s);
      LeakFree(w, p.s.disk);
      CompleteKeeps(c, w, p.s, first, current.number, current.number);
      var q := CompleteAll(p.s, first, current.number);
      if q.Go? { NothingToPrune(c, w, q.s); }
    }
  }

  lemma LeakFree(w: World, d: Disk)
    requires DiskOk(w, d)
    ensures Covered(d, d.closure.number)
  {
  }

  /** The maps after pruning satisfy the invariant for the advanced checkpoint. */
  lemma PrunedScan(w: World, closure: Checkpoint, scanned: Checkpoint, projected: nat, requests: map<Hash, Locator>,
      target: Checkpoint, gone: set<Hash>)
    requires ScanOk(w, closure, scanned, projected, requests)
    requires closure.number <= target.number <= scanned.number
    requires forall i :: i in requests ==> (i in gone <==> requests[i].blockNumber <= target.number)
    ensures ScanOk(w, target, scanned, projected, requests - gone)
  {
    forall i | i in requests - gone ensures Scanned(w, target.number, scanned.number, i, (requests - gone)[i]) {
      assert Scanned(w, closure.number, scanned.number, i, requests[i]);
    }
    forall h: nat | target.number < h <= scanned.number ensures RequestKept(w, h, requests - gone) {
      assert RequestKept(w, h, requests);
    }
  }

  lemma PrunedEffects(policy: Policy, w: World, b: Books, to: Books, closure: nat, scanned: nat, target: nat,
      effects: seq<Effect>, gone: set<Hash>)
    requires WorldOk(w) && BooksOk(policy, b) && OnlyPruned(b, to, gone) && closure <= target
    requires forall i :: i in b.requests ==> Scanned(w, closure, scanned, i, b.requests[i])
    requires forall i :: i in b.requests ==> (i in gone <==> b.requests[i].blockNumber <= target)
    requires TrackedOk(w, closure, effects, b.jobs)
    ensures TrackedOk(w, target, effects, to.jobs)
  {
    hide ReducerOk, ExportsOk, WorldOk;
    forall e | e in effects ensures TrackedEffect(w, target, e, to.jobs) {
      assert TrackedEffect(w, closure, e, b.jobs);
      if !e.Offered? && e.job in b.jobs && e.job !in to.jobs {
        var i := e.job.intent;
        assert Scanned(w, closure, scanned, i, b.requests[i]);
        HeightFixed(w, i, 0, b.requests[i].blockNumber);
      }
    }
  }

  lemma PrunedVotes(policy: Policy, w: World, b: Books, to: Books, gone: set<Hash>, results: map<JobId, Hash>)
    requires OnlyPruned(b, to, gone) && VotesOk(policy, w, b.jobs, b.reducer.jobs, results)
    ensures VotesOk(policy, w, to.jobs, to.reducer.jobs, results)
  {
  }

  /** Everything tracked at or below the target goes, and nothing else. */
  lemma PruneAtTarget(c: Config, w: World, s: Sys, t: Sys, target: Checkpoint)
    requires WorldOk(w) && Inv(c, w, s) && CoreOk(c, w, t)
    requires t == s.(disk := t.disk, wal := t.wal)
    requires t.disk.closure == target && t.disk.projected == s.disk.projected && t.disk.results == s.disk.results &&
             t.disk.retained == s.disk.retained
    requires s.disk.closure.number <= target.number <= s.scanned.number
    requires forall i :: i in s.books.requests && s.books.requests[i].blockNumber <= target.number ==>
             RequestClosed(s.books, i)
    ensures var f := PruneThrough(t, target.number);
            f.Go? && Inv(c, w, f.s) && f.s == t.(books := f.s.books)
  {
    hide BooksOk, ScanOk, ViewOk, EffectsOk, TrackedOk, VotesOk, DiskOk, AllSafe, TargetOk, RequestClosed, WorldOk;
    var order := SortedKeys(s.books.requests.Keys);
    assert Distinct(order);
    ClosingFacts(s.books, order, target.number);
    var closing := ClosingIntents(s.books, order, target.number);
    PruneKeeps(c.policy, w, t, closing);
    var f := PruneAll(t, closing);
    var gone := Elements(closing);
    assert forall i :: i in s.books.requests ==> (i in gone <==> s.books.requests[i].blockNumber <= target.number);
    PrunedScan(w, s.disk.closure, s.scanned, s.disk.projected, s.books.requests, target, gone);
    AllScanned(w, s);
    PrunedEffects(c.policy, w, s.books, f.s.books, s.disk.closure.number, s.scanned.number, target.number, s.effects,
      gone);
    PrunedVotes(c.policy, w, s.books, f.s.books, gone, s.disk.results);
  }

  lemma AllScanned(w: World, s: Sys)
    requires ScanOk(w, s.disk.closure, s.scanned, s.disk.projected, s.books.requests)
    ensures forall i :: i in s.books.requests ==>
            Scanned(w, s.disk.closure.number, s.scanned.number, i, s.books.requests[i])
  {
  }

  lemma PublishKeeps(c: Config, w: World, s: Sys, target: Checkpoint)
    requires WorldOk(w) && Inv(c, w, s) && s.disk.closure == target
    ensures Inv(c, w, WriteAll(s, [Publish(target)]))
    ensures WriteAll(s, [Publish(target)]).disk == s.disk.(finished := s.disk.finished + [target])
  {
    hide BooksOk, ScanOk, ViewOk, EffectsOk, TrackedOk, VotesOk, DiskOk, AllSafe, TargetOk, WorldOk;
    SingleSafe(w, s.disk, Publish(target));
    JournalGrows(w, s, [Publish(target)]);
  }

  lemma FlushAdvances(c: Config, w: World, s: Sys, first: seq<Key>, second: seq<Key>)
    requires WorldOk(w) && Inv(c, w, s) && s.disk.closure.number < FlushTarget(s).number
    ensures var f := Flush(c, s, first, second);
            && FlowOk(c, w, f) && (f.Go? || f.Halt?)
            && (f.Go? ==> f.s.disk.closure == FlushTarget(s) && f.s.scanned == s.scanned && f.s.viewed == s.viewed
                          && f.s.recoveryTarget == s.recoveryTarget && f.s.announced == s.announced
                          && f.s.effects == s.effects)
  {
    hide Inv, CoreOk, WorldOk, PrepareAll, CompleteAll, PruneThrough, FlushTarget, DiskOk, RequestClosed, Covered,
      SettledIn;
    var current := s.disk.closure;
    var target := FlushTarget(s);
    var order := SortedKeys(s.books.requests.Keys);
    TargetFacts(c, w, s);
    TargetSettled(c, w, s);
    PrepareKeeps(c, w, s, order, target.number);
    var p := PrepareAll(c, s, order, target.number);
    if p.Go? {
      InvParts(c, w, p.s);
      forall i | i in s.books.requests && s.books.requests[i].blockNumber <= target.number
        ensures RequestClosed(s.books, i) && Prepared(s.books, p.s.disk, i)
      {
        BehindTargetClosed(c, w, s, i);
        assert i in order && Closing(s.books, i, target.number);
      }
      AdvanceIsCovered(c, w, p.s, target.number, p.s.disk);
      CompleteKeeps(c, w, p.s, first, current.number, target.number);
      var q := CompleteAll(p.s, first, current.number);
      if q.Go? {
        AdvanceCore(c, w, q.s, target);
        var advanced := WriteAll(q.s, [AdvanceClosure(target, q.s.viewed)]);
        CompleteKeeps(c, w, advanced, second, target.number, target.number);
        var done := CompleteAll(advanced, second, target.number);
        if done.Go? {
          PruneAtTarget(c, w, q.s, done.s, target);
          PublishKeeps(c, w, PruneThrough(done.s, target.number).s, target);
        }
      }
    }
  }

  /** The flush keeps the invariant, and afterwards the checkpoint is where its target was. */
  lemma FlushKeeps(c: Config, w: World, s: Sys, first: seq<Key>, second: seq<Key>)
    requires WorldOk(w) && Inv(c, w, s)
    ensures var f := Flush(c, s, first, second);
            && FlowOk(c, w, f) && (f.Go? || f.Halt?)
            && (f.Go? ==> f.s.disk.closure.number == FlushTarget(s).number && f.s.scanned == s.scanned &&
                          f.s.viewed == s.viewed
                                      && f.s.recoveryTarget == s.recoveryTarget && f.s.announced == s.announced
                                      && f.s.effects == s.effects)
  {
    hide Inv, CoreOk, WorldOk, Flush, FlushTarget;
    TargetFacts(c, w, s);
    if s.disk.closure.number < FlushTarget(s).number { FlushAdvances(c, w, s, first, second); }
    else { FlushStays(c, w, s, first, second); }
  }
}
