/** A refresh keeps the invariant, whatever the surroundings answer. */
module OcompRefresh {
  import opened Basics
  import opened OcompTypes
  import opened OcompWorld
  import opened OcompReducer
  import opened OcompSpool
  import opened OcompObserver
  import opened OcompInvariant

  predicate Computing(b: Books, j: JobId) {
    j in b.jobs && b.jobs[j].computeStarted
  }

  /** What no part of a refresh touches. */
  ghost predicate Steady(s: Sys, t: Sys) {
    && t.viewed == s.viewed && t.scanned == s.scanned && t.recoveryTarget == s.recoveryTarget
    && t.announced == s.announced && t.disk.finished == s.disk.finished
    && t.books.requests == s.books.requests
    && t.disk.closure == s.disk.closure
    && t.base == s.base
  }

  /** `t` differs from `s` only by spool writes. */
  ghost predicate OnlyWrote(s: Sys, t: Sys) {
    && t == s.(disk := t.disk, wal := t.wal)
    && t.disk.closure == s.disk.closure && t.disk.projected == s.disk.projected
    && t.disk.results == s.disk.results && t.disk.retained == s.disk.retained && t.disk.finished == s.disk.finished
  }

  /** The request being refreshed: tracked, read at the current target, mapped to its job. */
  ghost predicate Current(w: World, s: Sys, i: Hash, r: JobRecord) {
    i in s.books.requests && r == w.records(s.viewed, i)
  }

  lemma InvParts(c: Config, w: World, s: Sys)
    requires Inv(c, w, s)
    ensures CoreOk(c, w, s) && DiskOk(w, s.disk)
  {
    hide BooksOk, ScanOk, ViewOk, EffectsOk, TrackedOk, VotesOk, DiskOk, AllSafe, TargetOk;
  }

  lemma PlanKeeps(c: Config, w: World, s: Sys, p: Plan)
    requires WorldOk(w) && CoreOk(c, w, s) && SafePlan(w, s.disk, p) && SpoolOnly(p.writes)
    ensures CoreOk(c, w, WriteAll(s, p.writes))
    ensures Inv(c, w, s) ==> FlowOk(c, w, Perform(s, p))
    ensures OnlyWrote(s, WriteAll(s, p.writes))
  {
    hide Inv, CoreOk;
    SpoolPlanKeeps(c, w, s, p.writes);
    SpoolOnlyKeeps(s.disk, p.writes);
  }

  lemma AckKeeps(c: Config, w: World, s: Sys, ack: Ack)
    requires WorldOk(w) && Inv(c, w, s)
    ensures Inv(c, w, WriteAll(s, PlanAck(s.disk, ack).writes)) &&
            OnlyWrote(s, WriteAll(s, PlanAck(s.disk, ack).writes))
  {
    hide Inv, CoreOk, AllSafe, DiskOk;
    InvParts(c, w, s);
    AckPlanSafe(w, s.disk, ack);
    SpoolPlanKeeps(c, w, s, PlanAck(s.disk, ack).writes);
    SpoolOnlyKeeps(s.disk, PlanAck(s.disk, ack).writes);
  }

  lemma {:induction false} ExporterKeeps(c: Config, w: World, s: Sys, acks: seq<Ack>)
    requires WorldOk(w) && Inv(c, w, s)
    ensures Inv(c, w, ExporterAcks(s, acks)) && OnlyWrote(s, ExporterAcks(s, acks))
    decreases |acks|
  {
    hide Inv, PlanAck, WriteAll;
    if acks != [] {
      ExporterKeeps(c, w, s, acks[..|acks| - 1]);
      AckKeeps(c, w, ExporterAcks(s, acks[..|acks| - 1]), acks[|acks| - 1]);
    }
  }

  // ----- binding -----

  lemma BindBooks(policy: Policy, w: World, viewed: nat, b: Books, i: Hash)
    requires BooksOk(policy, b) && ViewOk(w, viewed, b) && i in b.requests && w.records(viewed, i).finalized.Some?
    ensures BooksOk(policy, b.(intentJobs := b.intentJobs[i := JobOf(b.requests[i])]))
    ensures ViewOk(w, viewed, b.(intentJobs := b.intentJobs[i := JobOf(b.requests[i])]))
    ensures b.requests[i].request.intentId == i
  {
    hide ReducerOk, JobMapsOk, ExportsOk, ViewOk;
    BindMaps(b, i);
    BindExports(policy, w, viewed, b, i);
    BindView(w, viewed, b, i);
  }

  lemma BindMaps(b: Books, i: Hash)
    requires JobMapsOk(b) && i in b.requests
    ensures JobMapsOk(b.(intentJobs := b.intentJobs[i := JobOf(b.requests[i])])) && b.requests[i].request.intentId == i
  {
  }

  /** A request that was materialized without a job never gets one. */
  lemma BindExports(policy: Policy, w: World, viewed: nat, b: Books, i: Hash)
    requires JobMapsOk(b) && ExportsOk(b) && ViewOk(w, viewed, b) && i in b.requests &&
             w.records(viewed, i).finalized.Some?
    ensures ExportsOk(b.(intentJobs := b.intentJobs[i := JobOf(b.requests[i])]))
  {
  }

  lemma BindView(w: World, viewed: nat, b: Books, i: Hash)
    requires ViewOk(w, viewed, b) && w.records(viewed, i).finalized.Some? && i in b.requests
    ensures ViewOk(w, viewed, b.(intentJobs := b.intentJobs[i := JobOf(b.requests[i])]))
  {
  }

  lemma BindKeeps(c: Config, w: World, s: Sys, i: Hash, r: JobRecord)
    requires WorldOk(w) && Inv(c, w, s) && Current(w, s, i, r) && r.finalized.Some?
    ensures FlowOk(c, w, BindJob(s, s.books.requests[i], r))
    ensures BindJob(s, s.books.requests[i], r).Go? || BindJob(s, s.books.requests[i], r).Halt?
    ensures BindJob(s, s.books.requests[i], r).Go? ==>
              var t := BindJob(s, s.books.requests[i], r).s;
              Steady(s, t) && t.books == s.books.(intentJobs := s.books.intentJobs[i := JobOf(s.books.requests[i])])
  {
    hide BooksOk, ScanOk, ViewOk, EffectsOk, TrackedOk, VotesOk, DiskOk, AllSafe, WorldOk, TargetOk;
    BindBooks(c.policy, w, s.viewed, s.books, i);
  }

  // ----- discovery -----

  lemma PendingKeeps(c: Config, w: World, s: Sys, k: Key)
    requires WorldOk(w) && Inv(c, w, s)
    ensures var t := WriteAll(s, PlanPending(s.disk, k).writes);
            Inv(c, w, t) && CoreOk(c, w, t) && OnlyWrote(s, t)
  {
    hide Inv, CoreOk, AllSafe, DiskOk;
    InvParts(c, w, s);
    PendingPlanSafe(w, s.disk, k);
    SpoolPlanKeeps(c, w, s, PlanPending(s.disk, k).writes);
    SpoolOnlyKeeps(s.disk, PlanPending(s.disk, k).writes);
  }

  lemma {:induction false} PickKeeps(c: Config, w: World, s: Sys, spec: JobSpec, candidates: seq<Candidate>)
    requires WorldOk(w) && Inv(c, w, s)
    ensures FlowOk(c, w, PickSource(c, s, spec, candidates).flow)
    ensures PickSource(c, s, spec, candidates).flow.Go? || PickSource(c, s, spec, candidates).flow.Halt?
    ensures OnlyWrote(s, PickSource(c, s, spec, candidates).flow.s)
    decreases |candidates|
  {
    hide Inv, CoreOk, PlanPending, LookupPending, LookupAck, WriteAll, WorldOk, KeyOf;
    if candidates != [] {
      PickKeeps(c, w, s, spec, candidates[..|candidates| - 1]);
      var before := PickSource(c, s, spec, candidates[..|candidates| - 1]);
      if before.flow.Go? {
        InvParts(c, w, before.flow.s);
        PendingKeeps(c, w, before.flow.s, KeyOf(OfferRef(candidates[|candidates| - 1].generation, spec)));
      }
    }
  }

  lemma HeightFixed(w: World, i: Hash, a: nat, b: nat)
    requires WorldOk(w)
    ensures w.records(a, i).intentHeight == w.records(b, i).intentHeight
    ensures w.records(a, i).bundle == w.records(b, i).bundle
  {
    if a <= b {
      assert Progress(w.records(a, i), w.records(b, i));
    } else {
      assert Progress(w.records(b, i), w.records(a, i));
    }
  }

  /** The maps with job `j` newly tracked. */
  function WithJob(b: Books, j: JobId, job: RuntimeJob, reduced: Job): Books {
    b.(jobs := b.jobs[j := job],
       reducer := b.reducer.(nextGeneration := b.reducer.nextGeneration + 1, jobs := b.reducer.jobs[j := reduced]))
  }

  lemma TrackReducer(r: Reducer, j: JobId, deadline: nat)
    requires ReducerOk(r) && 1 <= deadline && j !in r.jobs
    ensures ReducerOk(r.(nextGeneration := r.nextGeneration + 1,
            jobs := r.jobs[j := NewJob(r.nextGeneration, deadline)]))
  {
  }

  lemma TrackBooks(policy: Policy, b: Books, j: JobId, job: RuntimeJob)
    requires BooksOk(policy, b) && j !in b.jobs && j !in b.reducer.jobs && j.intent in b.requests &&
             j.intent in b.intentJobs && b.intentJobs[j.intent] == j
    requires job.spec.jobId == j && job.spec.cursor == b.requests[j.intent].blockNumber
    requires job.generation == b.reducer.nextGeneration && 1 <= job.spec.deadline
    ensures BooksOk(policy, WithJob(b, j, job, NewJob(job.generation, job.spec.deadline)))
  {
    hide ReducerOk, JobMapsOk, ExportsOk;
    TrackReducer(b.reducer, j, job.spec.deadline);
    TrackMaps(b, j, job);
    TrackExports(b, j, job);
  }

  lemma TrackMaps(b: Books, j: JobId, job: RuntimeJob)
    requires JobMapsOk(b) && j.intent in b.intentJobs && b.intentJobs[j.intent] == j
    requires job.spec.jobId == j && j.intent in b.requests && job.spec.cursor == b.requests[j.intent].blockNumber
    ensures JobMapsOk(WithJob(b, j, job, NewJob(job.generation, job.spec.deadline)))
  {
  }

  lemma TrackExports(b: Books, j: JobId, job: RuntimeJob)
    requires ExportsOk(b) && j !in b.jobs
    ensures ExportsOk(WithJob(b, j, job, NewJob(job.generation, job.spec.deadline)))
  {
  }

  lemma TrackView(w: World, viewed: nat, b: Books, j: JobId, job: RuntimeJob)
    requires ViewOk(w, viewed, b) && j.intent in b.requests && w.records(viewed, j.intent).finalized.Some?
    requires job.spec == SpecFor(b.requests[j.intent], w.records(viewed, j.intent))
    ensures ViewOk(w, viewed, WithJob(b, j, job, NewJob(job.generation, job.spec.deadline)))
  {
  }

  lemma TrackEffects(w: World, closed: nat, effects: seq<Effect>, jobs: map<JobId, RuntimeJob>, j: JobId,
      job: RuntimeJob)
    requires TrackedOk(w, closed, effects, jobs) && j !in jobs && closed < w.records(0, j.intent).intentHeight
    ensures TrackedOk(w, closed, effects, jobs[j := job])
  {
    forall e | e in effects ensures TrackedEffect(w, closed, e, jobs[j := job]) {
      assert TrackedEffect(w, closed, e, jobs);
    }
  }

  lemma TrackVotes(policy: Policy, w: World, jobs: map<JobId, RuntimeJob>, reduced: map<JobId, Job>,
      results: map<JobId, Hash>,
                   j: JobId, job: RuntimeJob, fresh': Job)
    requires VotesOk(policy, w, jobs, reduced, results) && job.eligibility != Eligible
    ensures VotesOk(policy, w, jobs[j := job], reduced[j := fresh'], results)
  {
  }

  lemma RequestFacts(c: Config, w: World, s: Sys, i: Hash)
    requires WorldOk(w) && Inv(c, w, s) && i in s.books.requests
    ensures var l := s.books.requests[i];
            && l.request.intentId == i
            && (i in s.books.intentJobs ==> s.books.intentJobs[i] == JobOf(l))
            && (JobOf(l) in s.books.jobs <==> JobOf(l) in s.books.reducer.jobs)
            && s.disk.closure.number < l.blockNumber <= s.scanned.number
            && w.records(0, i).intentHeight == l.blockNumber
  {
    hide ViewOk, EffectsOk, TrackedOk, VotesOk, DiskOk, AllSafe, TargetOk, WorldOk;
    HeightFixed(w, i, 0, s.books.requests[i].blockNumber);
    assert Scanned(w, s.disk.closure.number, s.scanned.number, i, s.books.requests[i]);
  }

  lemma WithJobKeeps(c: Config, w: World, s: Sys, i: Hash, job: RuntimeJob)
    requires WorldOk(w) && Inv(c, w, s) && i in s.books.requests && i in s.books.intentJobs
    requires w.records(s.viewed, i).finalized.Some? && job.spec == SpecFor(s.books.requests[i], w.records(s.viewed, i))
    requires job.spec.jobId !in s.books.jobs && job.eligibility != Eligible
    requires job.generation == s.books.reducer.nextGeneration && 1 <= job.spec.deadline
    ensures Inv(c, w, s.(books := WithJob(s.books, job.spec.jobId, job, NewJob(job.generation, job.spec.deadline))))
  {
    hide BooksOk, ScanOk, ViewOk, EffectsOk, TrackedOk, VotesOk, DiskOk, AllSafe, WorldOk, TargetOk;
    RequestFacts(c, w, s, i);
    var j := job.spec.jobId;
    TrackBooks(c.policy, s.books, j, job);
    TrackView(w, s.viewed, s.books, j, job);
    TrackEffects(w, s.disk.closure.number, s.effects, s.books.jobs, j, job);
    TrackVotes(c.policy, w, s.books.jobs, s.books.reducer.jobs, s.disk.results, j, job,
      NewJob(job.generation, job.spec.deadline));
    TrackRetains(c.policy, s.books, s.disk.retained, j, job);
  }

  /** A job that is not tracked is not acknowledged. */
  lemma TrackRetains(policy: Policy, b: Books, retained: map<JobId, Ack>, j: JobId, job: RuntimeJob)
    requires BooksOk(policy, b) && Retains(b.acknowledged, b.jobs, retained) && j !in b.jobs
    ensures Retains(b.acknowledged, b.jobs[j := job], retained)
  {
    hide ReducerOk, JobMapsOk;
  }

  lemma TrackKeeps(c: Config, w: World, s: Sys, i: Hash, source: nat)
    requires WorldOk(w) && Inv(c, w, s) && i in s.books.requests && w.records(s.viewed, i).finalized.Some?
    requires i in s.books.intentJobs && JobOf(s.books.requests[i]) !in s.books.jobs
    ensures var f := TrackJob(c, s, SpecFor(s.books.requests[i], w.records(s.viewed, i)), source);
            && FlowOk(c, w, f) && (f.Go? || f.Halt?)
            && (!f.Halt? ==> Steady(s, f.s))
            && (f.Go? ==> JobOf(s.books.requests[i]) in f.s.books.jobs &&
                          !f.s.books.jobs[JobOf(s.books.requests[i])].computeStarted)
  {
    hide Inv, CoreOk, WorldOk;
    InvParts(c, w, s);
    RequestFacts(c, w, s, i);
    var spec := SpecFor(s.books.requests[i], w.records(s.viewed, i));
    if Observe(s.books.reducer, spec.jobId, spec.deadline).Observed? {
      var job := RuntimeJob(spec, source, s.books.reducer.nextGeneration, false, false,
                            if c.policy == Validator then PendingVote else NotMember, false, None);
      WithJobKeeps(c, w, s, i, job);
    }
  }

  lemma InstallKeeps(c: Config, w: World, s: Sys, i: Hash, candidates: seq<Candidate>)
    requires WorldOk(w) && Inv(c, w, s) && i in s.books.requests && w.records(s.viewed, i).finalized.Some?
    requires i in s.books.intentJobs && JobOf(s.books.requests[i]) !in s.books.jobs
    ensures var f := InstallJob(c, s, SpecFor(s.books.requests[i], w.records(s.viewed, i)), candidates);
            && FlowOk(c, w, f) && (f.Go? || f.Halt?)
            && (!f.Halt? ==> Steady(s, f.s))
            && (f.Go? ==> JobOf(s.books.requests[i]) in f.s.books.jobs &&
                          !f.s.books.jobs[JobOf(s.books.requests[i])].computeStarted)
  {
    hide Inv, CoreOk, WorldOk, TrackJob, PickSource;
    var spec := SpecFor(s.books.requests[i], w.records(s.viewed, i));
    PickKeeps(c, w, s, spec, candidates);
    var pick := PickSource(c, s, spec, candidates);
    if pick.flow.Go? {
      InvParts(c, w, pick.flow.s);
      if pick.selected.Some? { TrackKeeps(c, w, pick.flow.s, i, pick.selected.value); }
      else if pick.fallback.Some? { TrackKeeps(c, w, pick.flow.s, i, pick.fallback.value); }
    }
  }

  /** Committing an exporter ACK to retention. */
  lemma RetainKeeps(c: Config, w: World, s: Sys, j: JobId, ack: Ack)
    requires WorldOk(w) && Inv(c, w, s) && ack.ref.spec.jobId == j &&
             (j in s.disk.retained ==> s.disk.retained[j] == ack)
    requires KeyOf(ack.ref) in s.disk.acks && s.disk.acks[KeyOf(ack.ref)] == ack
    ensures var t := WriteAll(s, [RetainAck(j, ack)]);
            Inv(c, w, t) && t == s.(disk := s.disk.(retained := s.disk.retained[j := ack]), wal := t.wal)
  {
    hide BooksOk, ScanOk, ViewOk, TrackedOk, VotesOk, DiskOk, AllSafe, WorldOk, TargetOk, EffectsOk, Retains;
    SingleSafe(w, s.disk, RetainAck(j, ack));
    JournalGrows(w, s, [RetainAck(j, ack)]);
    RetainedMore(c.policy, w, s.books.acknowledged, s.books.jobs, s.disk.retained, s.effects, j, ack);
  }

  /** Retention keeps what it has. */
  lemma RetainedMore(policy: Policy, w: World, acknowledged: set<JobId>, jobs: map<JobId, RuntimeJob>,
      retained: map<JobId, Ack>,
                     effects: seq<Effect>, j: JobId, ack: Ack)
    requires j in retained ==> retained[j] == ack
    ensures Retains(acknowledged, jobs, retained) ==> Retains(acknowledged, jobs, retained[j := ack])
    ensures EffectsOk(policy, w, retained, effects) ==> EffectsOk(policy, w, retained[j := ack], effects)
  {
    if EffectsOk(policy, w, retained, effects) {
      forall e | e in effects ensures Entitled(policy, w, retained[j := ack], e) {
        assert Entitled(policy, w, retained, e);
      }
    }
  }

  /** A confirmation writes nothing or the ACK, and on success the ACK is what retention holds. */
  lemma ConfirmKeeps(c: Config, w: World, s: Sys, j: JobId, ack: Ack, reply: Reply)
    requires WorldOk(w) && Inv(c, w, s) && ack.ref.spec.jobId == j
    requires KeyOf(ack.ref) in s.disk.acks && s.disk.acks[KeyOf(ack.ref)] == ack
    ensures var f := Confirm(s, j, ack, reply);
            && FlowOk(c, w, f) && !f.Skip?
            && (f.Go? ==> f.s == s.(disk := s.disk.(retained := s.disk.retained[j := ack]), wal := f.s.wal))
            && (!f.Go? ==> f.s == s)
  {
    hide Inv, CoreOk, WorldOk, WriteAll, KeyOf;
    InvParts(c, w, s);
    if j !in s.disk.retained || s.disk.retained[j] == ack { RetainKeeps(c, w, s, j, ack); }
  }

  lemma AdoptKeeps(c: Config, w: World, s: Sys, claim: OfferRef, status: Status, terms: Option<Export>)
    requires Inv(c, w, s)
    requires Entitled(c.policy, w, s.disk.retained,
             Adopted(claim.spec.jobId, claim, status, terms, SpoolAck(s.disk, KeyOf(claim))))
    ensures Inv(c, w, Adopt(s, claim, status, terms))
  {
    hide BooksOk, ScanOk, ViewOk, DiskOk, AllSafe, TargetOk, VotesOk, EffectsOk, TrackedOk, Entitled, Retains;
    var e := Adopted(claim.spec.jobId, claim, status, terms, SpoolAck(s.disk, KeyOf(claim)));
    EffectAppend(c.policy, w, s.disk.retained, s.effects, e);
    TrackedAppend(w, s.disk.closure.number, s.effects, e, s.books.jobs);
  }

  lemma FoundIsThere(d: Disk, k: Key)
    requires LookupAck(d, k).Found?
    ensures k in d.acks && d.acks[k] == LookupAck(d, k).value && SpoolAck(d, k) == Some(d.acks[k])
  {
  }

  lemma ReleasedKeeps(c: Config, w: World, s: Sys, spec: JobSpec, status: Status, released: Released, confirm: Reply)
    requires WorldOk(w) && Inv(c, w, s) && released.Released?
    ensures var f := VerifyReleased(c, s, spec, status, released, confirm);
            FlowOk(c, w, f) && (!f.Halt? ==> Steady(s, f.s) && f.s.books == s.books)
  {
    hide Inv, CoreOk, WorldOk, LookupAck, Adopt, Confirm;
    InvParts(c, w, s);
    var probe := OfferRef(released.source, spec);
    if released.authority.Some? {
      ClaimedKeeps(c, w, s, OfferRef(released.authority.value.source, spec), status, released.authority.value);
    } else if status == Expired {
      AdoptExact(c, w, s, probe, status, None);
    } else {
      LateAckKeeps(c, w, s, probe, status, confirm);
    }
  }

  /** Adopting on an authority that retention recorded. */
  lemma ClaimedKeeps(c: Config, w: World, s: Sys, claim: OfferRef, status: Status, terms: Export)
    requires Inv(c, w, s) && claim.generation == terms.source
    ensures LookupAck(s.disk, KeyOf(claim)) == Found(Ack(claim, terms.lease, terms.manifest)) ==>
              var t := Adopt(s, claim, status, Some(terms));
              Inv(c, w, t) && Steady(s, t) && t.books == s.books
  {
    hide Inv, LookupAck, Adopt;
    if LookupAck(s.disk, KeyOf(claim)).Found? {
      FoundIsThere(s.disk, KeyOf(claim));
      AdoptExact(c, w, s, claim, status, Some(terms));
    }
  }

  /** Adopting on an ACK that retention only learns of now. */
  lemma LateAckKeeps(c: Config, w: World, s: Sys, probe: OfferRef, status: Status, confirm: Reply)
    requires WorldOk(w) && Inv(c, w, s)
    ensures var ack := LookupAck(s.disk, KeyOf(probe));
            ack.Found? && ack.value.ref == probe ==>
              var f := Confirm(s, probe.spec.jobId, ack.value, confirm);
              && FlowOk(c, w, f) && !f.Skip? && Steady(s, f.s) && f.s.books == s.books
              && (f.Go? ==>
                    var t := Adopt(f.s, probe, status, None);
                    Inv(c, w, t) && Steady(s, t) && t.books == s.books)
  {
    hide Inv, CoreOk, WorldOk, LookupAck, Adopt, Confirm;
    var ack := LookupAck(s.disk, KeyOf(probe));
    if ack.Found? && ack.value.ref == probe {
      FoundIsThere(s.disk, KeyOf(probe));
      ConfirmKeeps(c, w, s, probe.spec.jobId, ack.value, confirm);
      var f := Confirm(s, probe.spec.jobId, ack.value, confirm);
      if f.Go? { AdoptExact(c, w, f.s, probe, status, None); }
    }
  }

  lemma AdoptExact(c: Config, w: World, s: Sys, claim: OfferRef, status: Status, terms: Option<Export>)
    requires Inv(c, w, s)
    ensures (match terms
             case Some(t) => claim.generation == t.source &&
               SpoolAck(s.disk, KeyOf(claim)) == Some(Ack(claim, t.lease, t.manifest))
             case None => status == Expired
                          || (SpoolAck(s.disk, KeyOf(claim)).Some? && SpoolAck(s.disk, KeyOf(claim)).value.ref == claim
                              && RetainedFor(s.disk, claim.spec.jobId) == SpoolAck(s.disk, KeyOf(claim)))) ==>
              Inv(c, w, Adopt(s, claim, status, terms)) && Steady(s, Adopt(s, claim, status, terms))
              && Adopt(s, claim, status, terms).books == s.books
  {
    hide Inv, SpoolAck;
    var e := Adopted(claim.spec.jobId, claim, status, terms, SpoolAck(s.disk, KeyOf(claim)));
    if Entitled(c.policy, w, s.disk.retained, e) { AdoptKeeps(c, w, s, claim, status, terms); }
  }

  lemma DiscoverKeeps(c: Config, w: World, s: Sys, i: Hash, d: Disposition, a: Answers)
    requires WorldOk(w) && Inv(c, w, s) && i in s.books.requests && w.records(s.viewed, i).finalized.Some?
    requires i in s.books.intentJobs && JobOf(s.books.requests[i]) !in s.books.jobs
    ensures var f := Discover(c, s, SpecFor(s.books.requests[i], w.records(s.viewed, i)),
            w.records(s.viewed, i).status, d, a);
            && FlowOk(c, w, f)
            && (!f.Halt? ==> Steady(s, f.s))
            && (f.Go? ==> JobOf(s.books.requests[i]) in f.s.books.jobs &&
                          !f.s.books.jobs[JobOf(s.books.requests[i])].computeStarted)
  {
    hide Inv, CoreOk, WorldOk, InstallJob, DiscoverUnbound, SpecFor;
    InvParts(c, w, s);
    match a.discovery
    case Retained(candidates) => InstallKeeps(c, w, s, i, candidates);
    case Unbound(released, bind, rebound, candidates) => DiscoverUnboundKeeps(c, w, s, i, d, a);
    case _ =>
  }

  lemma DiscoverUnboundKeeps(c: Config, w: World, s: Sys, i: Hash, d: Disposition, a: Answers)
    requires WorldOk(w) && Inv(c, w, s) && i in s.books.requests && w.records(s.viewed, i).finalized.Some?
    requires i in s.books.intentJobs && JobOf(s.books.requests[i]) !in s.books.jobs && a.discovery.Unbound?
    ensures var f := DiscoverUnbound(c, s, SpecFor(s.books.requests[i], w.records(s.viewed, i)),
            w.records(s.viewed, i).status, d, a);
            && FlowOk(c, w, f)
            && (!f.Halt? ==> Steady(s, f.s))
            && (f.Go? ==> JobOf(s.books.requests[i]) in f.s.books.jobs &&
                          !f.s.books.jobs[JobOf(s.books.requests[i])].computeStarted)
  {
    hide Inv, CoreOk, WorldOk, InstallJob, VerifyReleased, SpecFor;
    InvParts(c, w, s);
    InstallKeeps(c, w, s, i, a.discovery.candidates);
    if a.discovery.released.Released? { DiscoverReleased(c, w, s, i, a.discovery.released, a.confirm); }
  }

  lemma DiscoverReleased(c: Config, w: World, s: Sys, i: Hash, released: Released, confirm: Reply)
    requires WorldOk(w) && Inv(c, w, s) && i in s.books.requests && w.records(s.viewed, i).finalized.Some?
    requires i in s.books.intentJobs && JobOf(s.books.requests[i]) !in s.books.jobs && released.Released?
    ensures var spec := SpecFor(s.books.requests[i], w.records(s.viewed, i));
            var v := VerifyReleased(c, s, spec, w.records(s.viewed, i).status, released, confirm);
            && FlowOk(c, w, v) && (!v.Halt? ==> Steady(s, v.s))
            && (v.Go? ==>
                  var f := InstallJob(c, v.s, spec, [Candidate(released.source, true)]);
                  && FlowOk(c, w, f) && (!f.Halt? ==> Steady(s, f.s))
                  && (f.Go? ==> JobOf(s.books.requests[i]) in f.s.books.jobs &&
                                !f.s.books.jobs[JobOf(s.books.requests[i])].computeStarted))
  {
    hide Inv, CoreOk, WorldOk, InstallJob, VerifyReleased;
    var spec := SpecFor(s.books.requests[i], w.records(s.viewed, i));
    ReleasedKeeps(c, w, s, spec, w.records(s.viewed, i).status, released, confirm);
    var v := VerifyReleased(c, s, spec, w.records(s.viewed, i).status, released, confirm);
    if v.Go? { InstallKeeps(c, w, v.s, i, [Candidate(released.source, true)]); }
  }

  // ----- offers and acknowledgments -----

  /** The offer of a tracked job belongs to its request block. */
  lemma OfferWitnessed(c: Config, w: World, s: Sys, j: JobId)
    requires WorldOk(w) && Inv(c, w, s) && j in s.books.jobs && s.viewed <= s.disk.projected
    ensures Witnessed(w, s.disk.projected, KeyOf(OfferOf(s.books.jobs[j])), OfferOf(s.books.jobs[j]))
    ensures s.disk.closure.number < s.books.jobs[j].spec.cursor
  {
    hide EffectsOk, TrackedOk, VotesOk, DiskOk, AllSafe, TargetOk, WorldOk, ReducerOk;
    assert j.intent in s.books.requests;
    var l := s.books.requests[j.intent];
    assert Scanned(w, s.disk.closure.number, s.scanned.number, j.intent, l);
    HeightFixed(w, j.intent, s.viewed, l.blockNumber);
    var ref := OfferOf(s.books.jobs[j]);
    RecordLater(w, j.intent, s.viewed, s.disk.projected);
  }

  lemma RecordLater(w: World, i: Hash, low: nat, high: nat)
    requires WorldOk(w) && low <= high
    ensures Progress(w.records(low, i), w.records(high, i))
  {
  }

  lemma PendBooks(policy: Policy, b: Books, j: JobId)
    requires BooksOk(policy, b) && j in b.jobs
    ensures BooksOk(policy, b.(pendingOffers := b.pendingOffers[j := OfferOf(b.jobs[j])]))
  {
    hide ReducerOk;
  }

  lemma NewOfferKeeps(c: Config, w: World, s: Sys, j: JobId, target: nat)
    requires Inv(c, w, s) && j in s.books.jobs && target == s.scanned.number
    ensures Inv(c, w, s.(books := s.books.(pendingOffers := s.books.pendingOffers[j := OfferOf(s.books.jobs[j])]),
                         effects := s.effects + [Offered(j, s.scanned.number, target)]))
  {
    hide BooksOk, ScanOk, DiskOk, AllSafe, TargetOk, VotesOk, EffectsOk, TrackedOk;
    PendBooks(c.policy, s.books, j);
    EffectAppend(c.policy, w, s.disk.retained, s.effects, Offered(j, s.scanned.number, target));
    TrackedAppend(w, s.disk.closure.number, s.effects, Offered(j, s.scanned.number, target), s.books.jobs);
  }

  lemma EnsureOfferKeeps(c: Config, w: World, s: Sys, j: JobId, target: nat, driven: bool)
    requires WorldOk(w) && Inv(c, w, s) && j in s.books.jobs
    requires target == s.viewed && (driven ==> target == s.scanned.number)
    ensures var f := EnsureOffer(s, j, target, driven);
            && FlowOk(c, w, f) && (f.Go? || f.Halt?)
            && (f.Go? ==>
                  && Steady(s, f.s) && f.s.books.jobs == s.books.jobs
                  && f.s.books.acknowledged == s.books.acknowledged
                  && (j in f.s.books.pendingOffers ==> f.s.books.pendingOffers[j] == OfferOf(s.books.jobs[j])))
  {
    hide Inv, CoreOk, WorldOk, AllSafe, DiskOk, PlanOffer, Witnessed, KeyOf;
    InvParts(c, w, s);
    PendingOfferFacts(c, w, s, j);
    if j !in s.books.pendingOffers && driven {
      var ref := OfferOf(s.books.jobs[j]);
      ScanFacts(c, w, s);
      OfferWitnessed(c, w, s, j);
      OfferPlanSafe(w, s.disk, ref);
      OfferSpoolOnly(s.disk, ref);
      PlanKeeps(c, w, s, PlanOffer(s.disk, ref));
      if PlanOffer(s.disk, ref).ok {
        NewOfferKeeps(c, w, WriteAll(s, PlanOffer(s.disk, ref).writes), j, target);
      }
    }
  }

  lemma OfferSpoolOnly(d: Disk, ref: OfferRef)
    ensures SpoolOnly(PlanOffer(d, ref).writes)
  {
  }

  lemma ScanFacts(c: Config, w: World, s: Sys)
    requires Inv(c, w, s)
    ensures s.disk.closure.number <= s.scanned.number <= s.disk.projected
  {
    hide BooksOk, ViewOk, EffectsOk, TrackedOk, VotesOk, DiskOk, AllSafe, TargetOk;
  }

  lemma PendingOfferFacts(c: Config, w: World, s: Sys, j: JobId)
    requires Inv(c, w, s)
    ensures j in s.books.pendingOffers ==> j in s.books.jobs && s.books.pendingOffers[j] == OfferOf(s.books.jobs[j])
    ensures j in s.books.acknowledged ==> j in s.books.jobs
    ensures j in s.books.jobs ==> s.books.jobs[j].spec.jobId == j
    ensures j in s.books.jobs ==>
            j in s.books.reducer.jobs && s.books.jobs[j].generation == s.books.reducer.jobs[j].generation
  {
    hide ScanOk, ViewOk, EffectsOk, TrackedOk, VotesOk, DiskOk, AllSafe, TargetOk, ReducerOk;
  }

  lemma AcknowledgeBooks(policy: Policy, w: World, viewed: nat, b: Books, j: JobId)
    requires BooksOk(policy, b) && ViewOk(w, viewed, b) && j in b.jobs
    ensures var to := b.(acknowledged := b.acknowledged + {j}, pendingOffers := b.pendingOffers - {j});
            BooksOk(policy, to) && ViewOk(w, viewed, to)
  {
    hide ReducerOk, JobMapsOk, ExportsOk, ViewOk;
    AcknowledgeExports(b, j);
    SameMaps(b, b.(acknowledged := b.acknowledged + {j}, pendingOffers := b.pendingOffers - {j}));
    SameView(w, viewed, b, b.(acknowledged := b.acknowledged + {j}, pendingOffers := b.pendingOffers - {j}));
  }

  lemma AcknowledgeExports(b: Books, j: JobId)
    requires ExportsOk(b) && j in b.jobs
    ensures ExportsOk(b.(acknowledged := b.acknowledged + {j}, pendingOffers := b.pendingOffers - {j}))
  {
  }

  /** The maps that `JobMapsOk` reads are the same. */
  lemma SameMaps(b: Books, to: Books)
    requires JobMapsOk(b) && to.requests == b.requests && to.jobs == b.jobs && to.intentJobs == b.intentJobs &&
             to.reducer == b.reducer
    ensures JobMapsOk(to)
  {
  }

  lemma SameView(w: World, viewed: nat, b: Books, to: Books)
    requires ViewOk(w, viewed, b) && to.requests == b.requests && to.jobs == b.jobs && to.intentJobs == b.intentJobs &&
             to.reducer == b.reducer
    requires to.materialized == b.materialized
    ensures ViewOk(w, viewed, to)
  {
  }

  lemma AcknowledgeKeeps(c: Config, w: World, s: Sys, j: JobId)
    requires Inv(c, w, s) && j in s.books.jobs && j in s.disk.retained &&
             s.disk.retained[j].ref == OfferOf(s.books.jobs[j])
    ensures Inv(c, w, s.(books :=
            s.books.(acknowledged := s.books.acknowledged + {j}, pendingOffers := s.books.pendingOffers - {j})))
  {
    hide BooksOk, ScanOk, ViewOk, DiskOk, AllSafe, TargetOk, VotesOk, EffectsOk, TrackedOk;
    AcknowledgeBooks(c.policy, w, s.viewed, s.books, j);
  }

  lemma ReconcileKeeps(c: Config, w: World, s: Sys, j: JobId, a: Answers, target: nat, driven: bool)
    requires WorldOk(w) && Inv(c, w, s)
    requires target == s.viewed && (driven ==> target == s.scanned.number)
    ensures var f := ReconcileAck(c, s, j, a, target, driven);
            && FlowOk(c, w, f) && !f.Skip?
            && (!f.Halt? ==> Steady(s, f.s) && f.s.books.jobs == s.books.jobs && j in f.s.books.jobs)
  {
    hide Inv, CoreOk, WorldOk, LookupAck, EnsureOffer, KeyOf, Confirm;
    InvParts(c, w, s);
    PendingOfferFacts(c, w, s, j);
    if j !in s.books.acknowledged && j in s.books.jobs {
      EnsureOfferKeeps(c, w, s, j, target, driven);
      var f := EnsureOffer(s, j, target, driven);
      if f.Go? {
        InvParts(c, w, f.s);
        ExactAckKeeps(c, w, f.s, j, a.confirm);
      }
    }
  }

  /** Retaining the exact ACK of a job's offer acknowledges the job. */
  lemma ExactAckKeeps(c: Config, w: World, s: Sys, j: JobId, reply: Reply)
    requires WorldOk(w) && Inv(c, w, s) && j in s.books.jobs
    ensures var offer := OfferOf(s.books.jobs[j]);
            var ack := LookupAck(s.disk, KeyOf(offer));
            ack.Found? && ack.value.ref == offer ==>
              var f := Confirm(s, j, ack.value, reply);
              && FlowOk(c, w, f) && !f.Skip? && (!f.Go? ==> f.s == s)
              && (f.Go? ==>
                    var t := f.s.(books := f.s.books.(acknowledged := f.s.books.acknowledged + {j},
                                                      pendingOffers := f.s.books.pendingOffers - {j}));
                    Inv(c, w, t) && Steady(s, t) && t.books.jobs == s.books.jobs)
  {
    hide Inv, CoreOk, WorldOk, LookupAck, KeyOf, Confirm;
    PendingOfferFacts(c, w, s, j);
    var offer := OfferOf(s.books.jobs[j]);
    var ack := LookupAck(s.disk, KeyOf(offer));
    if ack.Found? && ack.value.ref == offer {
      FoundIsThere(s.disk, KeyOf(offer));
      ConfirmKeeps(c, w, s, j, ack.value, reply);
      var f := Confirm(s, j, ack.value, reply);
      if f.Go? { AcknowledgeKeeps(c, w, f.s, j); }
    }
  }

  // ----- local results, votes, computations -----

  lemma InvButClosed(c: Config, w: World, s: Sys, j: JobId)
    requires InvBut(c, w, s, j)
    requires (j in s.books.jobs && j in s.books.reducer.jobs
              && VoteDue(s.books.jobs[j], s.books.reducer.jobs[j], j in s.disk.results)) ==> s.books.jobs[j].voteStarted
    ensures Inv(c, w, s)
  {
    hide BooksOk, ScanOk, ViewOk, EffectsOk, TrackedOk, DiskOk, AllSafe, TargetOk;
    forall k | k in s.books.jobs && k != j ensures k in s.books.jobs - {j} {}
  }

  lemma InvIsInvBut(c: Config, w: World, s: Sys, j: JobId)
    requires Inv(c, w, s)
    ensures InvBut(c, w, s, j)
  {
    hide BooksOk, ScanOk, ViewOk, EffectsOk, TrackedOk, DiskOk, AllSafe, TargetOk;
  }

  /** What an update of a runtime job may change. */
  predicate JobKept(from: RuntimeJob, to: RuntimeJob) {
    && to.spec == from.spec && to.source == from.source && to.generation == from.generation
    && (from.computeStarted ==> to.computeStarted)
    && (from.voteStarted ==> to.voteStarted)
  }

  lemma UpdateBooks(policy: Policy, b: Books, j: JobId, job: RuntimeJob)
    requires BooksOk(policy, b) && j in b.jobs && JobKept(b.jobs[j], job)
    ensures BooksOk(policy, b.(jobs := b.jobs[j := job]))
  {
    hide ReducerOk, JobMapsOk, ExportsOk;
    UpdateMaps(b, j, job);
    UpdateExports(b, j, job);
  }

  lemma UpdateMaps(b: Books, j: JobId, job: RuntimeJob)
    requires JobMapsOk(b) && j in b.jobs && JobKept(b.jobs[j], job)
    ensures JobMapsOk(b.(jobs := b.jobs[j := job]))
  {
  }

  lemma UpdateExports(b: Books, j: JobId, job: RuntimeJob)
    requires ExportsOk(b) && j in b.jobs && JobKept(b.jobs[j], job)
    ensures ExportsOk(b.(jobs := b.jobs[j := job]))
  {
  }

  lemma UpdateView(w: World, viewed: nat, b: Books, j: JobId, job: RuntimeJob)
    requires ViewOk(w, viewed, b) && j in b.jobs && JobKept(b.jobs[j], job)
    ensures ViewOk(w, viewed, b.(jobs := b.jobs[j := job]))
  {
  }

  lemma UpdateTracked(w: World, closed: nat, effects: seq<Effect>, jobs: map<JobId, RuntimeJob>, j: JobId,
      job: RuntimeJob)
    requires TrackedOk(w, closed, effects, jobs) && j in jobs && JobKept(jobs[j], job)
    ensures TrackedOk(w, closed, effects, jobs[j := job])
  {
    forall e | e in effects ensures TrackedEffect(w, closed, e, jobs[j := job]) {
      assert TrackedEffect(w, closed, e, jobs);
    }
  }

  lemma UpdateKeeps(c: Config, w: World, s: Sys, j: JobId, job: RuntimeJob)
    requires InvBut(c, w, s, j) && j in s.books.jobs && JobKept(s.books.jobs[j], job)
    requires job.eligibility == Eligible ==> c.policy == Validator && w.member(j.intent)
    ensures InvBut(c, w, UpdateJob(s, j, job), j)
  {
    hide BooksOk, ScanOk, ViewOk, EffectsOk, TrackedOk, VotesOk, DiskOk, AllSafe, TargetOk;
    UpdateBooks(c.policy, s.books, j, job);
    UpdateView(w, s.viewed, s.books, j, job);
    UpdateTracked(w, s.disk.closure.number, s.effects, s.books.jobs, j, job);
    assert s.books.jobs[j := job] - {j} == s.books.jobs - {j};
  }

  // ----- reducing -----

  lemma ReducedRegistry(r: Reducer, j: JobId, job: Job)
    requires ReducerOk(r) && j in r.jobs && JobOk(r.mode, job) && JobProgress(r.jobs[j], job)
    ensures ReducerOk(r.(jobs := r.jobs[j := job]))
  {
    hide JobOk;
  }

  lemma ReducedBooks(policy: Policy, b: Books, j: JobId, job: Job)
    requires BooksOk(policy, b) && j in b.reducer.jobs && JobOk(policy, job) && JobProgress(b.reducer.jobs[j], job)
    ensures BooksOk(policy, b.(reducer := b.reducer.(jobs := b.reducer.jobs[j := job])))
  {
    hide ReducerOk, JobOk;
    ReducedRegistry(b.reducer, j, job);
  }

  lemma ReducedView(w: World, viewed: nat, b: Books, j: JobId, job: Job)
    requires ViewOk(w, viewed, b) && j in b.reducer.jobs
    requires job.terminal.Some? ==> ReasonOf(w.records(viewed, j.intent).status) == job.terminal
    ensures ViewOk(w, viewed, b.(reducer := b.reducer.(jobs := b.reducer.jobs[j := job])))
  {
  }

  lemma ReducedVotes(policy: Policy, w: World, jobs: map<JobId, RuntimeJob>, reduced: map<JobId, Job>,
      results: map<JobId, Hash>, j: JobId, job: Job)
    requires VotesOk(policy, w, jobs, reduced, results) && j in reduced && JobProgress(reduced[j], job)
    ensures VotesOk(policy, w, jobs, reduced[j := job], results)
  {
  }

  lemma SetReducedKeeps(c: Config, w: World, s: Sys, j: JobId, job: Job)
    requires InvBut(c, w, s, j) && j in s.books.reducer.jobs
    requires JobOk(c.policy, job) && JobProgress(s.books.reducer.jobs[j], job)
    requires job.terminal.Some? ==> ReasonOf(w.records(s.viewed, j.intent).status) == job.terminal
    ensures InvBut(c, w, SetReduced(s, j, job), j)
  {
    hide BooksOk, ScanOk, ViewOk, EffectsOk, TrackedOk, VotesOk, DiskOk, AllSafe, TargetOk, JobOk, JobProgress;
    ReducedBooks(c.policy, s.books, j, job);
    ReducedView(w, s.viewed, s.books, j, job);
    ReducedVotes(c.policy, w, s.books.jobs - {j}, s.books.reducer.jobs, s.disk.results, j, job);
  }

  lemma JobFacts(c: Config, w: World, s: Sys, j: JobId)
    requires InvBut(c, w, s, j)
    ensures CoreOk(c, w, s) && s.books.reducer.mode == c.policy
    ensures j in s.books.jobs <==> j in s.books.reducer.jobs
    ensures j in s.books.jobs ==>
              && s.books.jobs[j].generation == s.books.reducer.jobs[j].generation
              && JobOk(c.policy, s.books.reducer.jobs[j])
              && j.intent in s.books.requests && j == JobOf(s.books.requests[j.intent])
              && s.books.jobs[j].spec.jobId == j
              && (s.books.reducer.jobs[j].terminal.Some? ==>
                    ReasonOf(w.records(s.viewed, j.intent).status) == s.books.reducer.jobs[j].terminal)
  {
    hide ScanOk, EffectsOk, TrackedOk, VotesOk, DiskOk, AllSafe, TargetOk, JobOk;
  }

  /** A local result never settles a job by itself. */
  lemma LocalKeepsTerminal(mode: Policy, job: Job, generation: nat, digest: Hash)
    requires JobOk(mode, job)
    ensures match ReduceJob(mode, job, LocalCompleted(generation, digest))
            case Reduced(to, action) =>
              && to.terminal == job.terminal
              && (mode == Validator && generation == job.generation && job.terminal.None? ==> action.SubmitVote?)
            case Rejected(_) => true
  {
  }

  /** A job with its vote not yet started has no vote among the effects. */
  lemma NoVoteYet(w: World, closed: nat, effects: seq<Effect>, jobs: map<JobId, RuntimeJob>, j: JobId)
    requires TrackedOk(w, closed, effects, jobs) && j in jobs && !jobs[j].voteStarted
    ensures forall x :: 0 <= x < |effects| ==> !SameWork(effects[x], Voted(j))
  {
    forall x | 0 <= x < |effects| ensures !SameWork(effects[x], Voted(j)) {
      assert TrackedEffect(w, closed, effects[x], jobs);
    }
  }

  lemma NoComputeYet(w: World, closed: nat, effects: seq<Effect>, jobs: map<JobId, RuntimeJob>, e: Effect)
    requires TrackedOk(w, closed, effects, jobs) && e.Computed? && e.job in jobs && !jobs[e.job].computeStarted
    ensures forall x :: 0 <= x < |effects| ==> !SameWork(effects[x], e)
  {
    forall x | 0 <= x < |effects| ensures !SameWork(effects[x], e) {
      assert TrackedEffect(w, closed, effects[x], jobs);
    }
  }

  lemma VoteEffectKeeps(c: Config, w: World, s: Sys, j: JobId)
    requires InvBut(c, w, s, j) && j in s.books.jobs && !s.books.jobs[j].voteStarted &&
             s.books.jobs[j].eligibility == Eligible
    ensures InvBut(c, w, UpdateJob(s, j, s.books.jobs[j].(voteStarted := true)).(effects := s.effects + [Voted(j)]), j)
  {
    var t := UpdateJob(s, j, s.books.jobs[j].(voteStarted := true));
    hide BooksOk, ScanOk, ViewOk, EffectsOk, TrackedOk, VotesOk, DiskOk, AllSafe, TargetOk;
    UpdateKeeps(c, w, s, j, s.books.jobs[j].(voteStarted := true));
    NoVoteYet(w, s.disk.closure.number, s.effects, s.books.jobs, j);
    EffectAppend(c.policy, w, s.disk.retained, s.effects, Voted(j));
    TrackedAppend(w, s.disk.closure.number, s.effects, Voted(j), t.books.jobs);
  }

  lemma StartVoteKeeps(c: Config, w: World, s: Sys, j: JobId, a: Answers)
    requires InvBut(c, w, s, j)
    ensures var f := StartVote(s, j, a);
            && FlowOk(c, w, f) && (f.Go? || f.Halt?)
            && (f.Go? ==>
                  && Steady(s, f.s) && f.s.disk == s.disk && j in s.books.jobs
                  && f.s.books.jobs.Keys == s.books.jobs.Keys
                  && f.s.books.jobs[j] == s.books.jobs[j].(voteStarted := f.s.books.jobs[j].voteStarted)
                  && f.s.books.reducer == s.books.reducer && f.s.books.acknowledged == s.books.acknowledged)
  {
    hide Inv, InvBut, CoreOk;
    JobFacts(c, w, s, j);
    MemberFacts(c, w, s, j);
    if j in s.books.jobs {
      var job := s.books.jobs[j];
      match job.eligibility
      case PendingVote => InvButClosed(c, w, s, j);
      case NotMember =>
        UpdateKeeps(c, w, s, j, job.(voteStarted := true));
        InvButClosed(c, w, UpdateJob(s, j, job.(voteStarted := true)), j);
      case Eligible =>
        if job.voteStarted { InvButClosed(c, w, s, j); }
        else {
          VoteEffectKeeps(c, w, s, j);
          InvButClosed(c, w, UpdateJob(s, j, job.(voteStarted := true)).(effects := s.effects + [Voted(j)]), j);
        }
    }
  }

  lemma MemberFacts(c: Config, w: World, s: Sys, j: JobId)
    requires InvBut(c, w, s, j)
    ensures j in s.books.jobs && s.books.jobs[j].eligibility == Eligible ==> c.policy == Validator && w.member(j.intent)
  {
    hide BooksOk, ScanOk, ViewOk, EffectsOk, TrackedOk, VotesOk, DiskOk, AllSafe, TargetOk;
  }

  /** What a step on job `j` leaves as it was. */
  ghost predicate SameTracking(s: Sys, t: Sys) {
    && Steady(s, t) && t.disk.results == s.disk.results && t.disk.retained == s.disk.retained
    && t.books.jobs.Keys == s.books.jobs.Keys && t.books.acknowledged == s.books.acknowledged
    && t.books.intentJobs == s.books.intentJobs
  }

  lemma AcceptKeeps(c: Config, w: World, s: Sys, j: JobId, digest: Hash, a: Answers)
    requires InvBut(c, w, s, j) && j in s.books.jobs
    ensures var f := AcceptResult(s, j, s.books.jobs[j].generation, digest, a);
            && FlowOk(c, w, f) && (f.Go? || f.Halt?)
            && (f.Go? ==> SameTracking(s, f.s) && JobKept(s.books.jobs[j], f.s.books.jobs[j]))
  {
    hide Inv, InvBut, CoreOk, JobOk, ReduceJob, StartVote;
    JobFacts(c, w, s, j);
    var generation := s.books.jobs[j].generation;
    var before := s.books.reducer.jobs[j];
    ReduceKeeps(c.policy, before, LocalCompleted(generation, digest));
    LocalKeepsTerminal(c.policy, before, generation, digest);
    var r := Reduce(s, j, LocalCompleted(generation, digest));
    if r.Reduced? {
      SetReducedKeeps(c, w, s, j, r.job);
      var t := SetReduced(s, j, r.job);
      JobFacts(c, w, t, j);
      MemberFacts(c, w, s, j);
      if r.action.SubmitVote? {
        StartVoteKeeps(c, w, t, j, a);
        if StartVote(t, j, a).Go? { StartVoteTracking(t, j, a); }
      } else {
        InvButClosed(c, w, t, j);
        if r.action.FatalMismatch? { FatalKeeps(c, w, t); }
      }
    }
  }

  lemma StartVoteTracking(s: Sys, j: JobId, a: Answers)
    requires StartVote(s, j, a).Go?
    ensures SameTracking(s, StartVote(s, j, a).s) && JobKept(s.books.jobs[j], StartVote(s, j, a).s.books.jobs[j])
  {
    assert s.books.jobs[j := s.books.jobs[j].(voteStarted := true)].Keys == s.books.jobs.Keys;
    match s.books.jobs[j].eligibility
    case PendingVote =>
    case NotMember =>
    case Eligible =>
  }

  lemma FatalKeeps(c: Config, w: World, s: Sys)
    requires Inv(c, w, s)
    ensures Inv(c, w, s.(fatal := true))
  {
    hide BooksOk, ScanOk, ViewOk, DiskOk, AllSafe, TargetOk, VotesOk, EffectsOk, TrackedOk;
  }

  lemma RestoreKeeps(c: Config, w: World, s: Sys, j: JobId, a: Answers)
    requires InvBut(c, w, s, j) && j in s.books.jobs
    ensures var f := RestoreResult(s, j, a);
            && FlowOk(c, w, f) && (f.Go? || f.Halt?)
            && (f.Go? ==> SameTracking(s, f.s) && JobKept(s.books.jobs[j], f.s.books.jobs[j])
                          && (j in s.disk.results ==> f.s.books.jobs[j].computeStarted))
  {
    hide Inv, InvBut, CoreOk, AcceptResult;
    JobFacts(c, w, s, j);
    if j in s.disk.results {
      MemberFacts(c, w, s, j);
      var job := s.books.jobs[j].(computeStarted := true);
      UpdateKeeps(c, w, s, j, job);
      AcceptKeeps(c, w, UpdateJob(s, j, job), j, s.disk.results[j], a);
    } else {
      InvButClosed(c, w, s, j);
    }
  }

  lemma ComputeKeeps(c: Config, w: World, s: Sys, j: JobId, a: Answers, target: nat)
    requires Inv(c, w, s) && j in s.books.jobs && j in s.books.acknowledged
    requires c.policy == Validator ==>
             target == s.scanned.number && (s.books.jobs[j].computeStarted || j !in s.disk.results)
    ensures var f := EnsureCompute(s, j, a, target);
            && FlowOk(c, w, f) && (f.Go? || f.Halt?)
            && (f.Go? ==> SameTracking(s, f.s) && Computing(f.s.books, j))
  {
    hide Inv, InvBut, CoreOk, TrackedOk;
    InvParts(c, w, s);
    InvIsInvBut(c, w, s, j);
    MemberFacts(c, w, s, j);
    if !s.books.jobs[j].computeStarted {
      var job := s.books.jobs[j].(computeStarted := true);
      var e := Computed(j, job.generation, s.scanned.number, target, OfferOf(job), RetainedFor(s.disk, j));
      UpdateKeeps(c, w, s, j, job);
      TrackedFact(c, w, s);
      ComputeEffect(c, w, s, UpdateJob(s, j, job), j, s.scanned.number, target);
      InvButClosed(c, w, UpdateJob(s, j, job).(effects := s.effects + [e]), j);
    }
  }

  lemma ComputeEffect(c: Config, w: World, s: Sys, t: Sys, j: JobId, scanned: nat, target: nat)
    requires InvBut(c, w, t, j) && j in t.books.jobs && j in t.books.acknowledged && t.books.jobs[j].computeStarted
    requires TrackedOk(w, t.disk.closure.number, t.effects, s.books.jobs) && j in s.books.jobs &&
             !s.books.jobs[j].computeStarted
    requires c.policy == Validator ==> scanned == target
    ensures var job := t.books.jobs[j];
            InvBut(c, w, t.(effects := t.effects +
              [Computed(j, job.generation, scanned, target, OfferOf(job), RetainedFor(t.disk, j))]), j)
  {
    hide BooksOk, ScanOk, ViewOk, EffectsOk, TrackedOk, VotesOk, DiskOk, AllSafe, TargetOk;
    var job := t.books.jobs[j];
    var e := Computed(j, job.generation, scanned, target, OfferOf(job), RetainedFor(t.disk, j));
    JobFacts(c, w, t, j);
    assert job.spec.jobId == j;
    NoComputeYet(w, t.disk.closure.number, t.effects, s.books.jobs, e);
    EffectAppend(c.policy, w, t.disk.retained, t.effects, e);
    TrackedAppend(w, t.disk.closure.number, t.effects, e, t.books.jobs);
  }

  lemma TrackedFact(c: Config, w: World, s: Sys)
    requires Inv(c, w, s)
    ensures TrackedOk(w, s.disk.closure.number, s.effects, s.books.jobs)
  {
    hide BooksOk, ScanOk, ViewOk, EffectsOk, TrackedOk, VotesOk, DiskOk, AllSafe, TargetOk;
  }

  lemma EligibilityKeeps(c: Config, w: World, s: Sys, j: JobId, a: Answers)
    requires Inv(c, w, s) && j in s.books.jobs
    ensures var f := RefreshEligibility(c, w, s, j, a);
            && (if f.Halt? then CoreOk(c, w, f.s) else InvBut(c, w, f.s, j)) && (f.Go? || f.Halt?)
            && (f.Go? ==> SameTracking(s, f.s) && f.s.books.reducer == s.books.reducer
                          && f.s.books.jobs[j] == s.books.jobs[j].(eligibility := f.s.books.jobs[j].eligibility)
                          && (s.books.jobs[j].eligibility != PendingVote ==> f.s == s)
                          && (f.s.books.jobs[j].eligibility == s.books.jobs[j].eligibility ||
                            s.books.jobs[j].eligibility == PendingVote))
  {
    hide Inv, InvBut, CoreOk;
    InvParts(c, w, s);
    InvIsInvBut(c, w, s, j);
    if c.policy == Validator && s.books.jobs[j].eligibility == PendingVote {
      var resolved := AdvanceEligibility(PendingVote, a.membership, w.member(j.intent));
      if resolved.Some? {
        UpdateKeeps(c, w, s, j, s.books.jobs[j].(eligibility := resolved.value));
      }
    }
  }

  lemma VotingOpenKeeps(c: Config, w: World, s: Sys, j: JobId, r: JobRecord, discovered: bool, a: Answers, target: nat,
      driven: bool, acked: bool)
    requires Inv(c, w, s) && j in s.books.jobs && (acked ==> j in s.books.acknowledged)
    requires driven ==> target == s.scanned.number
    requires discovered ==> !s.books.jobs[j].computeStarted
    ensures var f := ActOn(c, w, s, j, r, IsVotingOpen, discovered, acked, a, target, driven);
            FlowOk(c, w, f) && (!f.Halt? ==> SameTracking(s, f.s))
            && (f.Go? && acked && driven ==> Computing(f.s.books, j))
  {
    hide Inv, InvBut, CoreOk, RefreshEligibility, RestoreResult, EnsureCompute;
    InvParts(c, w, s);
    if acked && driven {
      EligibilityKeeps(c, w, s, j, a);
      var e := RefreshEligibility(c, w, s, j, a);
      if e.Go? {
        var s1 := e.s;
        JobFacts(c, w, s1, j);
        var became := s.books.jobs[j].eligibility == PendingVote && s1.books.jobs[j].eligibility == Eligible;
        if RestoreWhen(IsVotingOpen, c.policy, discovered, became, s1.books.jobs[j].computeStarted) == BeforeCompute {
          RestoreKeeps(c, w, s1, j, a);
          var f := RestoreResult(s1, j, a);
          if f.Go? { ComputeKeeps(c, w, f.s, j, a, target); }
        } else {
          if s1.books.jobs[j].eligibility == Eligible { assert s1 == s; } else { InvButClosed(c, w, s1, j); }
          ComputeKeeps(c, w, s1, j, a, target);
        }
      }
    }
  }

  // ----- canonical settlement -----

  lemma SettleKeeps(c: Config, w: World, s: Sys, j: JobId, event: Event)
    requires InvBut(c, w, s, j) && j in s.books.jobs
    requires match event
             case CanonicalCompleted(_) => w.records(s.viewed, j.intent).status == Completed
             case CanonicalClosed(reason) => ReasonOf(w.records(s.viewed, j.intent).status) == Some(reason)
             case DeadlineReached => true
             case LocalFailed(_) => true
             case VoteFinalized(_, _) => true
             case VoteFailed(_) => true
             case LocalCompleted(_, _) => false
    ensures CoreOk(c, w, s)
    ensures Reduce(s, j, event).Reduced? ==> InvBut(c, w, SetReduced(s, j, Reduce(s, j, event).job), j)
  {
    hide Inv, InvBut, CoreOk, JobOk;
    JobFacts(c, w, s, j);
    ReduceKeeps(c.policy, s.books.reducer.jobs[j], event);
    if Reduce(s, j, event).Reduced? {
      SettledReason(c.policy, s.books.reducer.jobs[j], event);
      SetReducedKeeps(c, w, s, j, Reduce(s, j, event).job);
    }
  }

  lemma SettledReason(mode: Policy, job: Job, event: Event)
    requires ReduceJob(mode, job, event).Reduced?
    ensures var to := ReduceJob(mode, job, event).job;
            to.terminal == job.terminal
            || (event.CanonicalCompleted? && to.terminal == Some(CompletedReason))
            || (event.CanonicalClosed? && to.terminal == Some(event.reason))
  {
  }

  lemma ObserveCompletedKeeps(c: Config, w: World, s: Sys, j: JobId, r: JobRecord, a: Answers, target: nat)
    requires Inv(c, w, s) && j in s.books.jobs && r == w.records(s.viewed, j.intent) && r.status == Completed
    ensures var f := ObserveCompleted(c, s, j, r, a, target);
            FlowOk(c, w, f) && (f.Go? || f.Halt?) &&
              (f.Go? ==> SameTracking(s, f.s) && JobKept(s.books.jobs[j], f.s.books.jobs[j]))
  {
    hide Inv, InvBut, CoreOk, ReduceJob;
    InvParts(c, w, s);
    InvIsInvBut(c, w, s, j);
    MemberFacts(c, w, s, j);
    if s.books.jobs[j].canonical.None? && r.completion.Some? {
      var digest := r.completion.value.digest;
      var job := s.books.jobs[j].(canonical := Some(digest));
      UpdateKeeps(c, w, s, j, job);
      var t := UpdateJob(s, j, job);
      SettleKeeps(c, w, t, j, CanonicalCompleted(digest));
      var reduced := Reduce(t, j, CanonicalCompleted(digest));
      if reduced.Reduced? {
        var u := SetReduced(t, j, reduced.job);
        JobFacts(c, w, u, j);
        CompletedNotDue(c.policy, t.books.reducer, j, digest);
        InvButClosed(c, w, u, j);
        FatalKeeps(c, w, u);
      }
    }
  }

  lemma CompletedNotDue(mode: Policy, r: Reducer, j: JobId, digest: Hash)
    requires j in r.jobs && ReduceJob(mode, r.jobs[j], CanonicalCompleted(digest)).Reduced?
    ensures ReduceJob(mode, r.jobs[j], CanonicalCompleted(digest)).job.terminal.Some?
  {
  }

  lemma ObserveTerminalKeeps(c: Config, w: World, s: Sys, j: JobId, reason: Reason)
    requires Inv(c, w, s) && j in s.books.jobs && ReasonOf(w.records(s.viewed, j.intent).status) == Some(reason)
    ensures var f := ObserveTerminal(s, j, reason);
            FlowOk(c, w, f) && (f.Go? || f.Halt?) && (f.Go? ==> SameTracking(s, f.s))
  {
    hide Inv, InvBut, CoreOk, ReduceJob;
    InvParts(c, w, s);
    InvIsInvBut(c, w, s, j);
    SettleKeeps(c, w, s, j, CanonicalClosed(reason));
    var reduced := Reduce(s, j, CanonicalClosed(reason));
    if reduced.Reduced? {
      var t := SetReduced(s, j, reduced.job);
      MemberFacts(c, w, t, j);
      DueOnlyIfBefore(c, w, s, j, reduced.job);
      var job := t.books.jobs[j].(cancelled := true);
      UpdateKeeps(c, w, t, j, job);
      ReducedTerminal(c.policy, s.books.reducer, j, reason);
      InvButClosed(c, w, UpdateJob(t, j, job), j);
    }
  }

  lemma ReducedTerminal(mode: Policy, r: Reducer, j: JobId, reason: Reason)
    requires j in r.jobs && ReduceJob(r.mode, r.jobs[j], CanonicalClosed(reason)).Reduced?
    ensures ReduceJob(r.mode, r.jobs[j], CanonicalClosed(reason)).job.terminal.Some?
  {
  }

  /** A vote due after a reduction was due before it. */
  lemma DueOnlyIfBefore(c: Config, w: World, s: Sys, j: JobId, job: Job)
    requires Inv(c, w, s) && j in s.books.jobs && j in s.books.reducer.jobs
    ensures s.books.reducer.jobs[j].terminal.None? || job.terminal.Some? ==>
              (VoteDue(s.books.jobs[j], job, j in s.disk.results) ==> s.books.jobs[j].voteStarted)
  {
    hide BooksOk, ScanOk, ViewOk, EffectsOk, TrackedOk, DiskOk, AllSafe, TargetOk;
  }

  lemma CompletedKeeps(c: Config, w: World, s: Sys, j: JobId, r: JobRecord, discovered: bool, a: Answers, target: nat,
      driven: bool, acked: bool)
    requires Inv(c, w, s) && j in s.books.jobs && (acked ==> j in s.books.acknowledged)
    requires r == w.records(s.viewed, j.intent) && r.status == Completed
    ensures var f := ActOn(c, w, s, j, r, IsCompleted, discovered, acked, a, target, driven);
            FlowOk(c, w, f) && (!f.Halt? ==> SameTracking(s, f.s))
  {
    hide Inv, InvBut, CoreOk, ObserveCompleted, RestoreResult, EnsureCompute;
    InvParts(c, w, s);
    if acked {
      ObserveCompletedKeeps(c, w, s, j, r, a, target);
      var o := ObserveCompleted(c, s, j, r, a, target);
      if o.Go? && c.policy == FullNode {
        InvIsInvBut(c, w, o.s, j);
        RestoreKeeps(c, w, o.s, j, a);
        ComputeKeeps(c, w, o.s, j, a, target);
        var f := RestoreResult(o.s, j, a);
        if f.Go? { ComputeKeeps(c, w, f.s, j, a, target); }
      }
    }
  }

  lemma ActKeeps(c: Config, w: World, s: Sys, j: JobId, r: JobRecord, d: Disposition, discovered: bool, a: Answers,
      target: nat, driven: bool, acked: bool)
    requires Inv(c, w, s) && j in s.books.jobs && (acked ==> j in s.books.acknowledged)
    requires r == w.records(s.viewed, j.intent) && ClassifyJob(r.status, r.finalized.Some?) == Some(d)
    requires driven ==> target == s.scanned.number
    requires discovered ==> !s.books.jobs[j].computeStarted
    ensures var f := ActOn(c, w, s, j, r, d, discovered, acked, a, target, driven);
            FlowOk(c, w, f) && (!f.Halt? ==> SameTracking(s, f.s))
            && (f.Go? && d.IsVotingOpen? && acked && driven ==> Computing(f.s.books, j))
  {
    hide Inv, CoreOk, ObserveCompleted, RestoreResult, EnsureCompute, RefreshEligibility, ObserveTerminal;
    InvParts(c, w, s);
    match d
    case IsVotingOpen => VotingOpenKeeps(c, w, s, j, r, discovered, a, target, driven, acked);
    case IsCompleted => CompletedKeeps(c, w, s, j, r, discovered, a, target, driven, acked);
    case IsClosed(reason, _) => ObserveTerminalKeeps(c, w, s, j, reason);
    case WaitsForOpen =>
    case WaitsForFinality =>
  }

  lemma DeadlineKeeps(c: Config, w: World, s: Sys, j: JobId, deadline: nat, target: nat)
    requires Inv(c, w, s) && j in s.books.jobs
    ensures var f := NoteDeadline(s, j, deadline, target);
            FlowOk(c, w, f) && (f.Go? || f.Halt?) && (f.Go? ==> SameTracking(s, f.s) && f.s.books.jobs == s.books.jobs)
  {
    hide Inv, InvBut, CoreOk, ReduceJob;
    InvParts(c, w, s);
    InvIsInvBut(c, w, s, j);
    JobFacts(c, w, s, j);
    SettleKeeps(c, w, s, j, DeadlineReached);
    var reduced := Reduce(s, j, DeadlineReached);
    if reduced.Reduced? {
      SettledReason(s.books.reducer.mode, s.books.reducer.jobs[j], DeadlineReached);
      DueOnlyIfBefore(c, w, s, j, reduced.job);
      InvButClosed(c, w, SetReduced(s, j, reduced.job), j);
    }
  }

  // ----- one request, all requests -----

  lemma MaterializeBooks(policy: Policy, w: World, viewed: nat, b: Books, i: Hash)
    requires BooksOk(policy, b) && ViewOk(w, viewed, b) && i in b.requests
    requires if i in b.intentJobs then b.intentJobs[i] in b.acknowledged
             else Terminal(w.records(viewed, i).status) && w.records(viewed, i).finalized.None?
    ensures var to := b.(materialized := b.materialized + {i});
            BooksOk(policy, to) && ViewOk(w, viewed, to)
  {
    hide ReducerOk, JobMapsOk, ExportsOk, ViewOk;
    SameMaps(b, b.(materialized := b.materialized + {i}));
    MaterializeExports(b, i);
    MaterializeView(w, viewed, b, i);
  }

  lemma MaterializeExports(b: Books, i: Hash)
    requires ExportsOk(b) && i in b.requests && (i in b.intentJobs ==> b.intentJobs[i] in b.acknowledged)
    ensures ExportsOk(b.(materialized := b.materialized + {i}))
  {
  }

  lemma MaterializeView(w: World, viewed: nat, b: Books, i: Hash)
    requires ViewOk(w, viewed, b) &&
             (i !in b.intentJobs ==> Terminal(w.records(viewed, i).status) && w.records(viewed, i).finalized.None?)
    ensures ViewOk(w, viewed, b.(materialized := b.materialized + {i}))
  {
  }

  lemma MaterializeKeeps(c: Config, w: World, s: Sys, i: Hash)
    requires Inv(c, w, s) && i in s.books.requests
    requires if i in s.books.intentJobs then s.books.intentJobs[i] in s.books.acknowledged
             else Terminal(w.records(s.viewed, i).status) && w.records(s.viewed, i).finalized.None?
    ensures Inv(c, w, Materialize(s, i))
  {
    hide BooksOk, ScanOk, ViewOk, DiskOk, AllSafe, TargetOk, VotesOk, EffectsOk, TrackedOk;
    MaterializeBooks(c.policy, w, s.viewed, s.books, i);
  }

  lemma MappedIsFinalized(c: Config, w: World, s: Sys, i: Hash)
    requires Inv(c, w, s)
    ensures i in s.books.intentJobs ==> w.records(s.viewed, i).finalized.Some?
  {
    hide BooksOk, ScanOk, DiskOk, AllSafe, TargetOk, VotesOk, EffectsOk, TrackedOk;
  }

  /** Materializing an acknowledged request changes nothing else. */
  lemma AckedKeeps(c: Config, w: World, s: Sys, i: Hash, acked: bool)
    requires WorldOk(w) && Inv(c, w, s) && i in s.books.requests && JobOf(s.books.requests[i]) in s.books.jobs
    requires acked ==> JobOf(s.books.requests[i]) in s.books.acknowledged
    ensures s.books.requests[i].request.intentId == i
    ensures var t := if acked then Materialize(s, i) else s;
            && Inv(c, w, t) && CoreOk(c, w, t) && Steady(s, t)
            && t.books.jobs == s.books.jobs && t.books.acknowledged == s.books.acknowledged
  {
    hide Inv, CoreOk, WorldOk;
    var j := JobOf(s.books.requests[i]);
    MappedIsFinalized(c, w, s, i);
    RequestFacts(c, w, s, i);
    JobMapped(c, w, s, j);
    if acked { MaterializeKeeps(c, w, s, i); }
    InvParts(c, w, if acked then Materialize(s, i) else s);
  }

  lemma AfterAckKeeps(c: Config, w: World, s: Sys, i: Hash, d: Disposition, discovered: bool, a: Answers, driven: bool)
    requires WorldOk(w) && Inv(c, w, s) && i in s.books.requests && JobOf(s.books.requests[i]) in s.books.jobs
    requires w.records(s.viewed, i).finalized.Some? && ClassifyJob(w.records(s.viewed, i).status, true) == Some(d)
    requires driven ==> s.viewed == s.scanned.number
    requires discovered ==> !s.books.jobs[JobOf(s.books.requests[i])].computeStarted
    ensures var f := AfterAck(c, w, s, s.books.requests[i], w.records(s.viewed, i), d, discovered, a, s.viewed, driven);
            && FlowOk(c, w, f)
            && (!f.Halt? ==> Steady(s, f.s) && f.s.books.acknowledged == s.books.acknowledged)
            && (f.Go? && driven && d.IsVotingOpen? && JobOf(s.books.requests[i]) in s.books.acknowledged ==>
                  Computing(f.s.books, JobOf(s.books.requests[i])))
  {
    hide Inv, CoreOk, ActOn, NoteDeadline, WorldOk, Terminal, Materialize, Computing;
    InvParts(c, w, s);
    var j := JobOf(s.books.requests[i]);
    var r := w.records(s.viewed, i);
    var acked := r.status != Expired && j in s.books.acknowledged;
    AckedKeeps(c, w, s, i, acked);
    var s5 := if acked then Materialize(s, i) else s;
    ActThenNoteKeeps(c, w, s5, j, r, d, discovered, a, driven, acked);
  }

  /** Acting on the disposition and then noting the deadline. */
  lemma ActThenNoteKeeps(c: Config, w: World, s: Sys, j: JobId, r: JobRecord, d: Disposition, discovered: bool,
      a: Answers, driven: bool, acked: bool)
    requires Inv(c, w, s) && j in s.books.jobs && (acked ==> j in s.books.acknowledged)
    requires r == w.records(s.viewed, j.intent) && r.finalized.Some? && ClassifyJob(r.status, true) == Some(d)
    requires driven ==> s.viewed == s.scanned.number
    requires discovered ==> !s.books.jobs[j].computeStarted
    ensures var f := ActOn(c, w, s, j, r, d, discovered, acked, a, s.viewed, driven);
            var g := if f.Go? then NoteDeadline(f.s, j, r.finalized.value.deadline, s.viewed) else f;
            && FlowOk(c, w, g) && (!g.Halt? ==> SameTracking(s, g.s))
            && (g.Go? && d.IsVotingOpen? && acked && driven ==> Computing(g.s.books, j))
  {
    hide Inv, CoreOk, ActOn, NoteDeadline, ClassifyJob;
    ActKeeps(c, w, s, j, r, d, discovered, a, s.viewed, driven, acked);
    var f := ActOn(c, w, s, j, r, d, discovered, acked, a, s.viewed, driven);
    if f.Go? { DeadlineKeeps(c, w, f.s, j, r.finalized.value.deadline, s.viewed); }
  }

  lemma JobMapped(c: Config, w: World, s: Sys, j: JobId)
    requires Inv(c, w, s) && j in s.books.jobs
    ensures j.intent in s.books.intentJobs && s.books.intentJobs[j.intent] == j && j.intent in s.books.requests
  {
    hide ScanOk, ViewOk, DiskOk, AllSafe, TargetOk, VotesOk, EffectsOk, TrackedOk, ReducerOk;
  }

  lemma RefreshOneKeeps(c: Config, w: World, s: Sys, i: Hash, a: Answers, driven: bool)
    requires WorldOk(w) && Inv(c, w, s) && i in s.books.requests
    requires driven ==> s.viewed == s.scanned.number
    ensures var f := RefreshOne(c, w, s, i, a, s.viewed, driven);
            && FlowOk(c, w, f)
            && (!f.Halt? ==> Steady(s, f.s))
            && (f.Go? && driven && w.records(s.viewed, i).status == VotingOpen ==>
                  JobOf(s.books.requests[i]) in f.s.books.acknowledged ==>
                    Computing(f.s.books, JobOf(s.books.requests[i])))
  {
    hide Inv, CoreOk, AfterAck, WorldOk, BindJob, Discover, ReconcileAck, ExporterAcks, SpecFor, Computing;
    var r := w.records(s.viewed, i);
    var l := s.books.requests[i];
    ExporterKeeps(c, w, s, a.exporter);
    var s0 := ExporterAcks(s, a.exporter);
    InvParts(c, w, s0);
    MappedIsFinalized(c, w, s0, i);
    RequestFacts(c, w, s0, i);
    var d := ClassifyJob(r.status, r.finalized.Some?);
    if r.finalized.Some? && d.Some? && !d.value.WaitsForFinality? {
      BindKeeps(c, w, s0, i, r);
      var bound := BindJob(s0, l, r);
      if bound.Go? { RefreshBound(c, w, bound.s, i, d.value, a, driven); }
    } else if d.Some? && d.value.IsClosed? {
      MaterializeKeeps(c, w, s0, i);
    }
  }

  /** The refresh of a request whose job is bound. */
  lemma RefreshBound(c: Config, w: World, s: Sys, i: Hash, d: Disposition, a: Answers, driven: bool)
    requires WorldOk(w) && Inv(c, w, s) && i in s.books.requests && i in s.books.intentJobs
    requires w.records(s.viewed, i).finalized.Some? && ClassifyJob(w.records(s.viewed, i).status, true) == Some(d)
    requires driven ==> s.viewed == s.scanned.number
    ensures var r := w.records(s.viewed, i);
            var l := s.books.requests[i];
            var j := JobOf(l);
            var discovered := j !in s.books.jobs;
            var found := if discovered then Discover(c, s, SpecFor(l, r), r.status, d, a) else Go(s);
            && FlowOk(c, w, found) && (!found.Halt? ==> Steady(s, found.s))
            && (found.Go? ==>
                  var acked := if r.status == Expired then Go(found.s)
                    else ReconcileAck(c, found.s, j, a, s.viewed, driven);
                  && FlowOk(c, w, acked) && (!acked.Halt? ==> Steady(s, acked.s)) && !acked.Skip?
                  && (acked.Go? ==>
                        var f := AfterAck(c, w, acked.s, l, r, d, discovered, a, s.viewed, driven);
                        && FlowOk(c, w, f)
                        && (!f.Halt? ==> Steady(s, f.s) && f.s.books.acknowledged == acked.s.books.acknowledged)
                        && (f.Go? && driven && d.IsVotingOpen? && j in f.s.books.acknowledged ==>
                          Computing(f.s.books, j))))
  {
    hide Inv, CoreOk, AfterAck, WorldOk, Discover, ReconcileAck, SpecFor, Computing;
    var r := w.records(s.viewed, i);
    var l := s.books.requests[i];
    var discovered := JobOf(l) !in s.books.jobs;
    if discovered { DiscoverKeeps(c, w, s, i, d, a); }
    var found := if discovered then Discover(c, s, SpecFor(l, r), r.status, d, a) else Go(s);
    if found.Go? { RefreshTail(c, w, found.s, i, d, discovered, a, driven); }
  }

  lemma RefreshTail(c: Config, w: World, s: Sys, i: Hash, d: Disposition, discovered: bool, a: Answers, driven: bool)
    requires WorldOk(w) && Inv(c, w, s) && i in s.books.requests && JobOf(s.books.requests[i]) in s.books.jobs
    requires w.records(s.viewed, i).finalized.Some? && ClassifyJob(w.records(s.viewed, i).status, true) == Some(d)
    requires driven ==> s.viewed == s.scanned.number
    requires discovered ==> !s.books.jobs[JobOf(s.books.requests[i])].computeStarted
    ensures var r := w.records(s.viewed, i);
            var j := JobOf(s.books.requests[i]);
            var g := if r.status == Expired then Go(s) else ReconcileAck(c, s, j, a, s.viewed, driven);
            && FlowOk(c, w, g) && (!g.Halt? ==> Steady(s, g.s)) && !g.Skip?
            && (g.Go? ==>
                  var f := AfterAck(c, w, g.s, s.books.requests[i], r, d, discovered, a, s.viewed, driven);
                  && FlowOk(c, w, f)
                  && (!f.Halt? ==> Steady(s, f.s) && f.s.books.acknowledged == g.s.books.acknowledged)
                  && (f.Go? && driven && d.IsVotingOpen? && j in g.s.books.acknowledged ==> Computing(f.s.books, j)))
  {
    hide Inv, CoreOk, WorldOk, ReconcileAck, AfterAck, Computing;
    var j := JobOf(s.books.requests[i]);
    ReconcileKeeps(c, w, s, j, a, s.viewed, driven);
    var g := if w.records(s.viewed, i).status == Expired then Go(s) else ReconcileAck(c, s, j, a, s.viewed, driven);
    if g.Go? { AfterAckKeeps(c, w, g.s, i, d, discovered, a, driven); }
  }
}
