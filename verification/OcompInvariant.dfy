/** What every reachable state of the observer satisfies. */
module OcompInvariant {
  import opened Basics
  import opened OcompTypes
  import opened OcompWorld
  import opened OcompReducer
  import opened OcompSpool
  import opened OcompObserver

  // ----- the parts of the invariant -----

  /**
   Bookkeeping agreement. The runtime jobs and the reducer's jobs are the same, with the
   same generations; every job belongs to a tracked request through the intent map;
   pending offers and acknowledged exports name only live jobs; a materialized request
   with a mapped job has its export acknowledged.
   */
  ghost predicate BooksOk(policy: Policy, b: Books) {
    JobMapsOk(b) && ExportsOk(b) && b.reducer.mode == policy && ReducerOk(b.reducer)
  }

  ghost predicate JobMapsOk(b: Books) {
    && (forall i :: i in b.requests ==> b.requests[i].request.intentId == i)
    && (forall i :: i in b.intentJobs ==> i in b.requests && b.intentJobs[i] == JobOf(b.requests[i]))
    && b.jobs.Keys == b.reducer.jobs.Keys
    && (forall j :: j in b.jobs ==> j.intent in b.intentJobs && b.intentJobs[j.intent] == j)
    && (forall j :: j in b.jobs ==> b.jobs[j].generation == b.reducer.jobs[j].generation)
    && (forall j :: j in b.jobs ==>
      b.jobs[j].spec.jobId == j && b.jobs[j].spec.cursor == b.requests[j.intent].blockNumber)
  }

  ghost predicate ExportsOk(b: Books) {
    && b.acknowledged <= b.jobs.Keys
    && (forall j :: j in b.pendingOffers ==> j in b.jobs && b.pendingOffers[j] == OfferOf(b.jobs[j]))
    && b.materialized <= b.requests.Keys
    && (forall i :: i in b.materialized && i in b.intentJobs ==> b.intentJobs[i] in b.acknowledged)
  }

  /**
   Closure safety. The tracked requests are exactly those of the blocks above the closure
   checkpoint that were scanned; the scan is hash-linked from that checkpoint on.
   */
  ghost predicate ScanOk(w: World, closure: Checkpoint, scanned: Checkpoint, projected: nat,
      requests: map<Hash, Locator>) {
    && closure.number <= scanned.number <= projected
    && scanned.hash == w.frames(scanned.number).hash
    && Linked(w, closure.number, scanned.number)
    && (forall i :: i in requests ==> Scanned(w, closure.number, scanned.number, i, requests[i]))
    && (forall h: nat :: closure.number < h <= scanned.number ==> RequestKept(w, h, requests))
  }

  ghost predicate Scanned(w: World, low: nat, high: nat, i: Hash, l: Locator) {
    && low < l.blockNumber <= high
    && w.frames(l.blockNumber).observation.Some?
    && l == LocatorAt(w, l.blockNumber)
    && l.request.intentId == i
    && w.records(l.blockNumber, i).intentHeight == l.blockNumber
  }

  ghost predicate RequestKept(w: World, h: nat, requests: map<Hash, Locator>) {
    w.frames(h).observation.Some? ==>
      && w.frames(h).observation.value.intentId in requests
      && requests[w.frames(h).observation.value.intentId].blockNumber == h
  }

  function ReasonOf(status: Status): Option<Reason> {
    match status
    case Completed => Some(CompletedReason)
    case Expired => Some(ExpiredReason)
    case Failed => Some(FailedReason)
    case _ => None
  }

  /** What the maps know is what the chain said at the last refresh target. */
  ghost predicate ViewOk(w: World, viewed: nat, b: Books) {
    && (forall i :: i in b.intentJobs ==> w.records(viewed, i).finalized.Some?)
    && (forall i :: i in b.materialized && i !in b.intentJobs ==>
          Terminal(w.records(viewed, i).status) && w.records(viewed, i).finalized.None?)
    && (forall j :: j in b.reducer.jobs && b.reducer.jobs[j].terminal.Some? ==>
          ReasonOf(w.records(viewed, j.intent).status) == b.reducer.jobs[j].terminal)
    && (forall j :: j in b.jobs ==> j.intent in b.requests && w.records(viewed, j.intent).finalized.Some?
                                    && b.jobs[j].spec == SpecFor(b.requests[j.intent], w.records(viewed, j.intent)))
  }

  /** Refresh targets never move back. */
  ghost predicate TargetOk(viewed: nat, scanned: nat, recoveryTarget: Option<nat>) {
    && (viewed <= scanned || recoveryTarget == Some(viewed))
    && (recoveryTarget.Some? ==> scanned <= recoveryTarget.value)
  }

  /** What every started effect was entitled to, and that no job is computed or voted on twice. */
  ghost predicate EffectsOk(policy: Policy, w: World, retained: map<JobId, Ack>, effects: seq<Effect>) {
    && (forall e :: e in effects ==> Entitled(policy, w, retained, e))
    && (forall x, y :: 0 <= x < y < |effects| && effects[x].Computed? && effects[y].Computed? ==>
      effects[x].job != effects[y].job)
    && (forall x, y :: 0 <= x < y < |effects| && effects[x].Voted? && effects[y].Voted? ==>
      effects[x].job != effects[y].job)
  }

  /**
   A computation found the exact ACK of its job's offer in retention, where it still is; a job
   was adopted on the exact ACK in the spool, unless it expired without one.
   */
  ghost predicate Entitled(policy: Policy, w: World, retained: map<JobId, Ack>, e: Effect) {
    match e
    case Offered(_, scanned, target) => scanned == target
    case Computed(j, _, scanned, target, offer, held) =>
      && offer.spec.jobId == j && held.Some? && held.value.ref == offer
      && j in retained && retained[j] == held.value
      && (policy == Validator ==> scanned == target)
    case Voted(j) => policy == Validator && w.member(j.intent)
    case Adopted(j, claim, status, terms, found) =>
      && claim.spec.jobId == j
      && match terms
         case Some(t) => claim.generation == t.source && found == Some(Ack(claim, t.lease, t.manifest))
         case None => status == Expired ||
                      (found.Some? && found.value.ref == claim && j in retained && retained[j] == found.value)
  }

  /** Every acknowledged job has the exact ACK of its offer in retention. */
  ghost predicate Retains(acknowledged: set<JobId>, jobs: map<JobId, RuntimeJob>, retained: map<JobId, Ack>) {
    forall j :: j in acknowledged && j in jobs ==> j in retained && retained[j].ref == OfferOf(jobs[j])
  }

  /** An effect's job either still carries the flag or is closed for good. */
  ghost predicate TrackedOk(w: World, closed: nat, effects: seq<Effect>, jobs: map<JobId, RuntimeJob>) {
    forall e :: e in effects ==> TrackedEffect(w, closed, e, jobs)
  }

  ghost predicate TrackedEffect(w: World, closed: nat, e: Effect, jobs: map<JobId, RuntimeJob>) {
    match e
    case Offered(_, _, _) => true
    case Adopted(_, _, _, _, _) => true
    case Computed(j, g, _, _, offer, _) =>
      if j in jobs then jobs[j].computeStarted && jobs[j].generation == g && OfferOf(jobs[j]) == offer
      else w.records(0, j.intent).intentHeight <= closed
    case Voted(j) =>
      if j in jobs then jobs[j].voteStarted else w.records(0, j.intent).intentHeight <= closed
  }

  /** No vote is lost: a durable result of an eligible member is voted on unless the protocol settled the job. */
  ghost predicate VotesOk(policy: Policy, w: World, jobs: map<JobId, RuntimeJob>, reduced: map<JobId, Job>,
      results: map<JobId, Hash>) {
    && (forall j :: j in jobs && jobs[j].eligibility == Eligible ==> policy == Validator && w.member(j.intent))
    && (forall j :: j in jobs && j in reduced && VoteDue(jobs[j], reduced[j], j in results) ==> jobs[j].voteStarted)
  }

  predicate VoteDue(job: RuntimeJob, reduced: Job, durable: bool) {
    job.eligibility == Eligible && job.computeStarted && durable && reduced.terminal.None?
  }

  /** The writes of the current tick are safe one by one. */
  ghost predicate Journaled(w: World, s: Sys) {
    && DiskOk(w, s.base)
    && AllSafe(w, s.base, s.wal)
    && s.disk == ApplyAll(s.base, s.wal)
    && DiskOk(w, s.disk)
  }

  /** What holds even after the loop stopped on an error. */
  ghost predicate CoreOk(c: Config, w: World, s: Sys) {
    && Journaled(w, s)
    && EffectsOk(c.policy, w, s.disk.retained, s.effects)
  }

  /** What holds while the loop runs. */
  ghost predicate Inv(c: Config, w: World, s: Sys) {
    && CoreOk(c, w, s)
    && BooksOk(c.policy, s.books)
    && Retains(s.books.acknowledged, s.books.jobs, s.disk.retained)
    && ScanOk(w, s.disk.closure, s.scanned, s.disk.projected, s.books.requests)
    && ViewOk(w, s.viewed, s.books)
    && TargetOk(s.viewed, s.scanned.number, s.recoveryTarget)
    && TrackedOk(w, s.disk.closure.number, s.effects, s.books.jobs)
    && VotesOk(c.policy, w, s.books.jobs, s.books.reducer.jobs, s.disk.results)
  }

  /** The invariant, except that the vote of job `j` may still be due. */
  ghost predicate InvBut(c: Config, w: World, s: Sys, j: JobId) {
    && CoreOk(c, w, s)
    && BooksOk(c.policy, s.books)
    && Retains(s.books.acknowledged, s.books.jobs, s.disk.retained)
    && ScanOk(w, s.disk.closure, s.scanned, s.disk.projected, s.books.requests)
    && ViewOk(w, s.viewed, s.books)
    && TargetOk(s.viewed, s.scanned.number, s.recoveryTarget)
    && TrackedOk(w, s.disk.closure.number, s.effects, s.books.jobs)
    && VotesOk(c.policy, w, s.books.jobs - {j}, s.books.reducer.jobs, s.disk.results)
    && (j in s.books.jobs && s.books.jobs[j].eligibility == Eligible ==> c.policy == Validator && w.member(j.intent))
  }

  ghost predicate FlowOk(c: Config, w: World, f: Flow) {
    if f.Halt? then CoreOk(c, w, f.s) else Inv(c, w, f.s)
  }

  // ----- durable writes -----

  lemma {:induction false} ApplyAllConcat(d: Disk, a: seq<Write>, b: seq<Write>)
    ensures ApplyAll(d, a + b) == ApplyAll(ApplyAll(d, a), b)
    decreases |b|
  {
    if b == [] {
      assert a + b == a;
    } else {
      var b' := b[..|b| - 1];
      ApplyAllConcat(d, a, b');
      assert a + b == (a + b') + [b[|b| - 1]];
      ApplyAllAppend(d, a + b', b[|b| - 1]);
    }
  }

  lemma JournalGrows(w: World, s: Sys, ws: seq<Write>)
    requires WorldOk(w) && Journaled(w, s) && AllSafe(w, s.disk, ws)
    ensures Journaled(w, WriteAll(s, ws))
  {
    hide DiskOk, SafeWrite, WorldOk;
    ApplyAllConcat(s.base, s.wal, ws);
    forall k | 0 <= k < |s.wal + ws| ensures SafeWrite(w, ApplyAll(s.base, (s.wal + ws)[..k]), (s.wal + ws)[k]) {
      SafeInJournal(w, s, ws, k);
    }
    assert ws[..|ws|] == ws;
    CrashPointsKeep(w, s.disk, ws, |ws|);
  }

  lemma SafeInJournal(w: World, s: Sys, ws: seq<Write>, k: nat)
    requires AllSafe(w, s.base, s.wal) && s.disk == ApplyAll(s.base, s.wal) && AllSafe(w, s.disk, ws) &&
             k < |s.wal + ws|
    ensures SafeWrite(w, ApplyAll(s.base, (s.wal + ws)[..k]), (s.wal + ws)[k])
  {
    hide SafeWrite;
    if k < |s.wal| {
      assert (s.wal + ws)[..k] == s.wal[..k];
    } else {
      var n := k - |s.wal|;
      assert (s.wal + ws)[..k] == s.wal + ws[..n];
      ApplyAllConcat(s.base, s.wal, ws[..n]);
      assert SafeWrite(w, ApplyAll(s.disk, ws[..n]), ws[n]);
    }
  }

  lemma SingleSafe(w: World, d: Disk, wr: Write)
    requires SafeWrite(w, d, wr)
    ensures AllSafe(w, d, [wr]) && ApplyAll(d, [wr]) == Apply(d, wr)
  {
    assert [wr][..0] == [];
    ApplyAllAppend(d, [], wr);
    assert [] + [wr] == [wr];
  }

  /** What a write leaves alone. */
  ghost predicate SpoolOnly(ws: seq<Write>) {
    forall k :: 0 <= k < |ws| ==>
      !ws[k].AdvanceClosure? && !ws[k].Project? && !ws[k].PutResult? && !ws[k].RetainAck? && !ws[k].Publish?
  }

  lemma {:induction false} SpoolOnlyKeeps(d: Disk, ws: seq<Write>)
    requires SpoolOnly(ws)
    ensures var e := ApplyAll(d, ws);
            e.closure == d.closure && e.projected == d.projected && e.results == d.results && e.retained == d.retained
            && e.finished == d.finished
    decreases |ws|
  {
    hide Apply;
    if ws != [] {
      SpoolOnlyKeeps(d, ws[..|ws| - 1]);
      SpoolWriteKeeps(ApplyAll(d, ws[..|ws| - 1]), ws[|ws| - 1]);
    }
  }

  lemma SpoolWriteKeeps(d: Disk, wr: Write)
    requires !wr.AdvanceClosure? && !wr.Project? && !wr.PutResult? && !wr.RetainAck? && !wr.Publish?
    ensures var e := Apply(d, wr);
            e.closure == d.closure && e.projected == d.projected && e.results == d.results && e.retained == d.retained
            && e.finished == d.finished
  {
  }

  /** A safe spool plan keeps everything. */
  lemma SpoolPlanKeeps(c: Config, w: World, s: Sys, ws: seq<Write>)
    requires WorldOk(w) && AllSafe(w, s.disk, ws) && SpoolOnly(ws)
    requires CoreOk(c, w, s)
    ensures CoreOk(c, w, WriteAll(s, ws))
    ensures Inv(c, w, s) ==> Inv(c, w, WriteAll(s, ws))
  {
    JournalGrows(w, s, ws);
    SpoolOnlyKeeps(s.disk, ws);
  }

  // ----- effects -----

  predicate SameWork(e: Effect, f: Effect) {
    ((e.Computed? && f.Computed?) || (e.Voted? && f.Voted?)) && e.job == f.job
  }

  lemma EffectAppend(policy: Policy, w: World, retained: map<JobId, Ack>, effects: seq<Effect>, e: Effect)
    requires EffectsOk(policy, w, retained, effects) && Entitled(policy, w, retained, e)
    requires forall x :: 0 <= x < |effects| ==> !SameWork(effects[x], e)
    ensures EffectsOk(policy, w, retained, effects + [e])
  {
  }

  lemma TrackedAppend(w: World, closed: nat, effects: seq<Effect>, e: Effect, jobs: map<JobId, RuntimeJob>)
    requires TrackedOk(w, closed, effects, jobs) && TrackedEffect(w, closed, e, jobs)
    ensures TrackedOk(w, closed, effects + [e], jobs)
  {
  }
}
