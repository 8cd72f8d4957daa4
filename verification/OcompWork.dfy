/**
 What the maps stand for. A started flag stands for work that was spawned or for a result
 that is durable, a pending offer and an acknowledged export for a record in the spool; a
 refresh touches no job but its own; and a driven refresh that succeeds has served every
 open request.
 */
module OcompWork {
  import opened Basics
  import opened OcompTypes
  import opened OcompWorld
  import opened OcompReducer
  import opened OcompSpool
  import opened OcompObserver

  // ----- what the maps stand for -----

  ghost predicate Computes(effects: seq<Effect>, j: JobId) {
    exists e :: e in effects && e.Computed? && e.job == j
  }

  /** The histories know every record that is there. */
  ghost predicate Recorded(d: Disk) {
    d.offers.Keys <= d.everOffered.Keys && d.acks.Keys <= d.everAcked.Keys
  }

  ghost predicate FlagsStand(job: RuntimeJob, j: JobId, acknowledged: bool, durable: bool, effects: seq<Effect>) {
    && (job.computeStarted ==> acknowledged && (durable || Computes(effects, j)))
    && (job.voteStarted ==> job.eligibility == NotMember || Voted(j) in effects)
  }

  ghost predicate ExportsStand(b: Books, d: Disk, j: JobId) {
    && (j in b.pendingOffers ==>
      j in b.jobs && b.pendingOffers[j] == OfferOf(b.jobs[j]) && KeyOf(b.pendingOffers[j]) in d.everOffered)
    && (j in b.acknowledged ==> j in b.jobs && KeyOf(OfferOf(b.jobs[j])) in d.everAcked)
  }

  /** Whatever is recorded of job `j` stands for something done. */
  ghost predicate Stands(s: Sys, j: JobId) {
    && Recorded(s.disk)
    && ExportsStand(s.books, s.disk, j)
    && (j in s.books.jobs ==>
          FlagsStand(s.books.jobs[j], j, j in s.books.acknowledged, j in s.disk.results, s.effects))
  }

  ghost predicate AllStand(s: Sys) {
    Recorded(s.base) && Recorded(s.disk) && forall j: JobId :: Stands(s, j)
  }

  // ----- touching one job only -----

  ghost predicate Grows(d: Disk, e: Disk) {
    && d.results.Keys <= e.results.Keys && d.everOffered.Keys <= e.everOffered.Keys
    && d.everAcked.Keys <= e.everAcked.Keys
    && (Recorded(d) ==> Recorded(e))
  }

  /** The books of `b` and `to` differ in nothing that belongs to another job than `j`. */
  ghost predicate SameOthers(b: Books, to: Books, j: JobId) {
    && to.requests == b.requests
    && to.jobs - {j} == b.jobs - {j} && to.reducer.jobs - {j} == b.reducer.jobs - {j}
    && to.pendingOffers - {j} == b.pendingOffers - {j} && to.acknowledged - {j} == b.acknowledged - {j}
  }

  ghost predicate Touches(s: Sys, t: Sys, j: JobId) {
    && t.base == s.base && t.viewed == s.viewed && t.scanned == s.scanned
    && s.effects <= t.effects && Grows(s.disk, t.disk)
    && SameOthers(s.books, t.books, j)
  }

  /** A step for job `j`: it touches no other, and what stood for `j` still does. */
  ghost predicate Keeps(s: Sys, t: Sys, j: JobId) {
    Touches(s, t, j) && (Stands(s, j) ==> Stands(t, j))
  }

  lemma OthersTrans(a: Books, b: Books, c: Books, j: JobId)
    requires SameOthers(a, b, j) && SameOthers(b, c, j)
    ensures SameOthers(a, c, j)
  {
  }

  lemma KeepsTrans(a: Sys, b: Sys, c: Sys, j: JobId)
    requires Keeps(a, b, j) && Keeps(b, c, j)
    ensures Keeps(a, c, j)
  {
    hide Stands, SameOthers;
    OthersTrans(a.books, b.books, c.books, j);
  }

  lemma OtherInMaps<V>(m: map<JobId, V>, to: map<JobId, V>, j: JobId, o: JobId)
    requires to - {j} == m - {j} && o != j
    ensures o in to <==> o in m
    ensures o in m ==> to[o] == m[o]
  {
    assert o in m <==> o in m - {j};
    assert o in to <==> o in to - {j};
  }

  lemma OtherStands(s: Sys, t: Sys, j: JobId, o: JobId)
    requires Touches(s, t, j) && o != j && Stands(s, o)
    ensures Stands(t, o)
  {
    OtherInMaps(s.books.jobs, t.books.jobs, j, o);
    OtherInMaps(s.books.pendingOffers, t.books.pendingOffers, j, o);
    assert o in t.books.acknowledged <==> o in t.books.acknowledged - {j};
    assert o in s.books.acknowledged <==> o in s.books.acknowledged - {j};
  }

  lemma AllStandAfter(s: Sys, t: Sys, j: JobId)
    requires AllStand(s) && Keeps(s, t, j)
    ensures AllStand(t)
  {
    hide Stands, Touches;
    assert Stands(s, j);
    forall o: JobId ensures Stands(t, o) {
      if o != j { OtherStands(s, t, j, o); }
    }
    RecordedAfter(s, t, j);
  }

  lemma RecordedAfter(s: Sys, t: Sys, j: JobId)
    requires Recorded(s.base) && Recorded(s.disk) && Touches(s, t, j)
    ensures Recorded(t.base) && Recorded(t.disk)
  {
  }

  // ----- durable writes -----

  lemma {:induction false} WritesGrow(d: Disk, ws: seq<Write>)
    ensures Grows(d, ApplyAll(d, ws))
    decreases |ws|
  {
    if ws != [] {
      WritesGrow(d, ws[..|ws| - 1]);
      WriteGrows(ApplyAll(d, ws[..|ws| - 1]), ws[|ws| - 1]);
    }
  }

  lemma WriteGrows(d: Disk, w: Write)
    ensures Grows(d, Apply(d, w))
  {
  }

  lemma WritesKeep(s: Sys, ws: seq<Write>, j: JobId)
    ensures Keeps(s, WriteAll(s, ws), j)
  {
    hide ApplyAll;
    WritesGrow(s.disk, ws);
  }

  lemma {:induction false} ExporterKeep(s: Sys, acks: seq<Ack>, j: JobId)
    ensures Keeps(s, ExporterAcks(s, acks), j) && ExporterAcks(s, acks).books == s.books
    decreases |acks|
  {
    hide Keeps, PlanAck;
    if acks == [] {
      SelfKeeps(s, j);
    } else {
      ExporterKeep(s, acks[..|acks| - 1], j);
      var before := ExporterAcks(s, acks[..|acks| - 1]);
      WritesKeep(before, PlanAck(before.disk, acks[|acks| - 1]).writes, j);
      KeepsTrans(s, before, ExporterAcks(s, acks), j);
    }
  }

  lemma SelfKeeps(s: Sys, j: JobId)
    ensures Keeps(s, s, j)
  {
  }

  // ----- discovering -----

  lemma {:induction false} PickKeep(c: Config, s: Sys, spec: JobSpec, candidates: seq<Candidate>, j: JobId)
    ensures var p := PickSource(c, s, spec, candidates);
            Keeps(s, p.flow.s, j) && p.flow.s.books == s.books && !p.flow.Skip?
    decreases |candidates|
  {
    hide Keeps, PlanPending, LookupPending, LookupAck, ApplyAll;
    if candidates == [] {
      SelfKeeps(s, j);
    } else {
      PickKeep(c, s, spec, candidates[..|candidates| - 1], j);
      var before := PickSource(c, s, spec, candidates[..|candidates| - 1]);
      if before.flow.Go? {
        var s0 := before.flow.s;
        var k := KeyOf(OfferRef(candidates[|candidates| - 1].generation, spec));
        WritesKeep(s0, PlanPending(s0.disk, k).writes, j);
        KeepsTrans(s, s0, WriteAll(s0, PlanPending(s0.disk, k).writes), j);
      }
    }
  }

  /** The spool's record for `spec` is the offer of generation `g`: pending, or acknowledged. */
  predicate Authority(d: Disk, spec: JobSpec, g: nat) {
    var k := KeyOf(OfferRef(g, spec));
    if LookupPending(d, k).Found? then LookupPending(d, k).value == OfferRef(g, spec)
    else LookupAck(d, k).Found? && LookupAck(d, k).value.ref == OfferRef(g, spec)
  }

  predicate SameRecords(d: Disk, e: Disk) {
    e.offers == d.offers && e.acks == d.acks && e.retirements == d.retirements && e.quarantine == d.quarantine
  }

  lemma PendingKeepsRecords(d: Disk, k: Key)
    ensures SameRecords(d, ApplyAll(d, PlanPending(d, k).writes))
  {
    PlanOfTwo(d, PlanPending(d, k).writes);
    var ws := PlanPending(d, k).writes;
    if |ws| == 1 { assert ws[..1] == ws; }
  }

  /**
   The pick finds the one candidate the spool already has a record of: no other has one; and
   without any such candidate it falls back on the first.
   */
  lemma {:induction false} PickIsTheRecorded(c: Config, s: Sys, spec: JobSpec, candidates: seq<Candidate>)
    ensures var p := PickSource(c, s, spec, candidates);
            p.flow.Go? ==>
              && SameRecords(s.disk, p.flow.s.disk)
              && (p.selected.None? ==> forall n :: 0 <= n < |candidates| ==>
                !Authority(s.disk, spec, candidates[n].generation))
              && (p.selected.Some? ==>
                exists n :: 0 <= n < |candidates| && IsOnlyRecorded(s.disk, spec, candidates, n) &&
                            p.selected.value == candidates[n].generation)
              && (p.selected.None? && candidates != [] ==> p.fallback == Some(candidates[0].generation))
    decreases |candidates|
  {
    hide PlanPending, LookupPending, LookupAck, ApplyAll;
    if candidates != [] {
      var rest := candidates[..|candidates| - 1];
      var last := candidates[|candidates| - 1];
      PickIsTheRecorded(c, s, spec, rest);
      var before := PickSource(c, s, spec, rest);
      if before.flow.Go? && PickSource(c, s, spec, candidates).flow.Go? {
        PickNextRecorded(c, s.disk, before, spec, last);
        if before.selected.Some? {
          var n :| 0 <= n < |rest| && IsOnlyRecorded(s.disk, spec, rest, n) &&
            before.selected.value == rest[n].generation;
          assert IsOnlyRecorded(s.disk, spec, candidates, n);
        } else if Authority(s.disk, spec, last.generation) {
          assert IsOnlyRecorded(s.disk, spec, candidates, |candidates| - 1);
        }
      }
    }
  }

  predicate IsOnlyRecorded(d: Disk, spec: JobSpec, candidates: seq<Candidate>, n: nat)
    requires n < |candidates|
  {
    Authority(d, spec, candidates[n].generation)
    && forall m :: 0 <= m < |candidates| && m != n ==> !Authority(d, spec, candidates[m].generation)
  }

  lemma PickNextRecorded(c: Config, d: Disk, before: Pick, spec: JobSpec, last: Candidate)
    requires before.flow.Go? && SameRecords(d, before.flow.s.disk)
    ensures var p := PickNext(c, before, spec, last);
            p.flow.Go? ==>
              && SameRecords(d, p.flow.s.disk)
              && (Authority(d, spec, last.generation) ==>
                    before.selected.None? && p.selected == Some(last.generation) && p.fallback == before.fallback)
              && (!Authority(d, spec, last.generation) ==>
                    p.selected == before.selected && p.fallback == if before.fallback.None? then Some(last.generation)
                      else before.fallback)
  {
    hide PlanPending, ApplyAll;
    PendingKeepsRecords(before.flow.s.disk, KeyOf(OfferRef(last.generation, spec)));
  }

  lemma TrackKeep(c: Config, s: Sys, spec: JobSpec, source: nat)
    requires spec.jobId !in s.books.jobs
    ensures Keeps(s, TrackJob(c, s, spec, source).s, spec.jobId)
  {
  }

  lemma InstallKeep(c: Config, s: Sys, spec: JobSpec, candidates: seq<Candidate>)
    requires spec.jobId !in s.books.jobs
    ensures Keeps(s, InstallJob(c, s, spec, candidates).s, spec.jobId) && !InstallJob(c, s, spec, candidates).Skip?
  {
    hide Keeps, PickSource;
    var j := spec.jobId;
    PickKeep(c, s, spec, candidates, j);
    var p := PickSource(c, s, spec, candidates);
    if p.flow.Go? && (p.selected.Some? || p.fallback.Some?) {
      var source := if p.selected.Some? then p.selected.value else p.fallback.value;
      TrackKeep(c, p.flow.s, spec, source);
      KeepsTrans(s, p.flow.s, TrackJob(c, p.flow.s, spec, source).s, j);
    }
  }

  lemma ConfirmKeep(s: Sys, j: JobId, ack: Ack, reply: Reply)
    ensures var f := Confirm(s, j, ack, reply);
            Keeps(s, f.s, j) && f.s.books == s.books && !f.Skip?
  {
    hide Keeps, ApplyAll;
    SelfKeeps(s, j);
    WritesKeep(s, [RetainAck(j, ack)], j);
  }

  /** Noting an adoption, behind a step that kept the books. */
  lemma AdoptKeep(s: Sys, t: Sys, claim: OfferRef, status: Status, terms: Option<Export>, j: JobId)
    requires Keeps(s, t, j)
    ensures Keeps(s, Adopt(t, claim, status, terms), j) && Adopt(t, claim, status, terms).books == t.books
  {
    hide SameOthers, Grows, Recorded, ExportsStand;
  }

  lemma ReleasedKeep(c: Config, s: Sys, spec: JobSpec, status: Status, released: Released, confirm: Reply)
    requires released.Released?
    ensures var f := VerifyReleased(c, s, spec, status, released, confirm);
            Keeps(s, f.s, spec.jobId) && f.s.books == s.books && !f.Skip?
  {
    hide Keeps, LookupAck, Confirm, Adopt;
    var j := spec.jobId;
    var probe := OfferRef(released.source, spec);
    SelfKeeps(s, j);
    AdoptKeep(s, s, probe, status, None, j);
    if released.authority.Some? {
      AdoptKeep(s, s, OfferRef(released.authority.value.source, spec), status, released.authority, j);
    } else if LookupAck(s.disk, KeyOf(probe)).Found? {
      var ack := LookupAck(s.disk, KeyOf(probe)).value;
      ConfirmKeep(s, j, ack, confirm);
      AdoptKeep(s, Confirm(s, j, ack, confirm).s, probe, status, None, j);
    }
  }

  lemma DiscoverKeep(c: Config, s: Sys, spec: JobSpec, status: Status, d: Disposition, a: Answers)
    requires spec.jobId !in s.books.jobs
    ensures var f := Discover(c, s, spec, status, d, a);
            Keeps(s, f.s, spec.jobId) && (f.Skip? ==> f.s == s)
  {
    hide Keeps, InstallJob, VerifyReleased;
    SelfKeeps(s, spec.jobId);
    match a.discovery
    case Retained(candidates) => InstallKeep(c, s, spec, candidates);
    case Unbound(released, _, _, candidates) =>
      InstallKeep(c, s, spec, candidates);
      if released.Released? {
        ReleasedKeep(c, s, spec, status, released, a.confirm);
        var v := VerifyReleased(c, s, spec, status, released, a.confirm);
        InstallKeep(c, v.s, spec, [Candidate(released.source, true)]);
        KeepsTrans(s, v.s, InstallJob(c, v.s, spec, [Candidate(released.source, true)]).s, spec.jobId);
      }
    case _ =>
  }

  // ----- offers and acknowledgments -----

  /** A planned offer that succeeds is in the spool. */
  lemma OfferIsThere(d: Disk, ref: OfferRef)
    requires PlanOffer(d, ref).ok
    ensures KeyOf(ref) in ApplyAll(d, PlanOffer(d, ref).writes).offers
  {
    hide ApplyAll;
    var k := KeyOf(ref);
    NoWrites(d);
    OneWrite(d, PutPending(k));
    TwoWrites(d, PutOffer(k, ref), PutPending(k));
  }

  lemma EnsureOfferKeep(s: Sys, j: JobId, target: nat, driven: bool)
    requires j in s.books.jobs
    ensures var f := EnsureOffer(s, j, target, driven);
            && Keeps(s, f.s, j) && (f.Go? || f.Halt?)
            && (f.Go? && driven ==> j in f.s.books.pendingOffers)
            && f.s.books.jobs == s.books.jobs && f.s.books.acknowledged == s.books.acknowledged
  {
    hide Keeps, PlanOffer, ApplyAll;
    SelfKeeps(s, j);
    var ref := OfferOf(s.books.jobs[j]);
    var p := PlanOffer(s.disk, ref);
    WritesKeep(s, p.writes, j);
    if p.ok && j !in s.books.pendingOffers && driven {
      OfferIsThere(s.disk, ref);
      PendKeep(WriteAll(s, p.writes), j, Offered(j, s.scanned.number, target));
      KeepsTrans(s, WriteAll(s, p.writes), EnsureOffer(s, j, target, driven).s, j);
    }
  }

  lemma PendKeep(s: Sys, j: JobId, e: Effect)
    requires j in s.books.jobs && KeyOf(OfferOf(s.books.jobs[j])) in s.disk.offers && e.Offered?
    ensures Keeps(s, s.(books := s.books.(pendingOffers := s.books.pendingOffers[j := OfferOf(s.books.jobs[j])]),
            effects := s.effects + [e]), j)
  {
  }

  /** After reconciling, a driven job is acknowledged or waits on a persisted offer. */
  lemma ReconcileKeep(c: Config, s: Sys, j: JobId, a: Answers, target: nat, driven: bool)
    ensures var f := ReconcileAck(c, s, j, a, target, driven);
            && Keeps(s, f.s, j) && !f.Skip?
            && (f.Go? && driven ==> j in f.s.books.acknowledged || j in f.s.books.pendingOffers)
  {
    hide Keeps, EnsureOffer, ApplyAll;
    SelfKeeps(s, j);
    if j !in s.books.acknowledged && j in s.books.jobs {
      EnsureOfferKeep(s, j, target, driven);
      var f := EnsureOffer(s, j, target, driven);
      if f.Go? {
        if Acknowledgeable(f.s, j) {
          AcknowledgeKeep(f.s, j, a.confirm);
          KeepsTrans(s, f.s, Acknowledging(f.s, j, a.confirm).s, j);
        }
      }
    }
  }

  /** The ACK of the awaited offer is in the spool. */
  predicate Acknowledgeable(s: Sys, j: JobId) {
    j in s.books.jobs && LookupAck(s.disk, KeyOf(Awaited(s, j))).Found?
  }

  function Awaited(s: Sys, j: JobId): OfferRef
    requires j in s.books.jobs
  {
    if j in s.books.pendingOffers then s.books.pendingOffers[j] else OfferOf(s.books.jobs[j])
  }

  function Acknowledging(s: Sys, j: JobId, reply: Reply): Flow
    requires Acknowledgeable(s, j)
  {
    var t :- Confirm(s, j, LookupAck(s.disk, KeyOf(Awaited(s, j))).value, reply);
    Go(t.(books := t.books.(acknowledged := t.books.acknowledged + {j}, pendingOffers := t.books.pendingOffers - {j})))
  }

  lemma AcknowledgeKeep(s: Sys, j: JobId, reply: Reply)
    requires Acknowledgeable(s, j)
    ensures Keeps(s, Acknowledging(s, j, reply).s, j) && !Acknowledging(s, j, reply).Skip?
  {
    hide Keeps, Confirm;
    ConfirmKeep(s, j, LookupAck(s.disk, KeyOf(Awaited(s, j))).value, reply);
    var f := Confirm(s, j, LookupAck(s.disk, KeyOf(Awaited(s, j))).value, reply);
    if f.Go? { MarkKeep(s, f.s, j); }
  }

  lemma MarkKeep(s: Sys, t: Sys, j: JobId)
    requires Acknowledgeable(s, j) && Keeps(s, t, j) && t.books == s.books
    ensures Keeps(s, t.(books :=
            t.books.(acknowledged := t.books.acknowledged + {j}, pendingOffers := t.books.pendingOffers - {j})), j)
  {
    assert t.books.acknowledged + {j} - {j} == t.books.acknowledged - {j};
  }

  // ----- votes and computations -----

  /** The exports are left alone. */
  predicate SameExports(b: Books, to: Books) {
    to.acknowledged == b.acknowledged && to.pendingOffers == b.pendingOffers && to.jobs.Keys == b.jobs.Keys
  }

  ghost predicate Works(s: Sys, f: Flow, j: JobId) {
    Keeps(s, f.s, j) && (f.Go? || f.Halt?) && (f.Go? ==> SameExports(s.books, f.s.books))
  }

  lemma WorksThen(s: Sys, t: Sys, f: Flow, j: JobId)
    requires Works(s, Go(t), j) && Works(t, f, j)
    ensures Works(s, f, j)
  {
    hide Keeps;
    KeepsTrans(s, t, f.s, j);
  }

  lemma SetReducedKeep(s: Sys, j: JobId, job: Job)
    ensures Works(s, Go(SetReduced(s, j, job)), j) && Works(s, Go(SetReduced(s, j, job).(fatal := true)), j)
  {
  }

  /** Changing the flags of job `j`, with the effects that justify it. */
  lemma UpdateKeep(s: Sys, j: JobId, job: RuntimeJob, more: seq<Effect>)
    requires j in s.books.jobs && OfferOf(job) == OfferOf(s.books.jobs[j])
    requires FlagsStand(s.books.jobs[j], j, j in s.books.acknowledged, j in s.disk.results, s.effects) ==>
               FlagsStand(job, j, j in s.books.acknowledged, j in s.disk.results, s.effects + more)
    ensures Works(s, Go(UpdateJob(s, j, job).(effects := s.effects + more)), j)
  {
    hide FlagsStand, Recorded;
  }

  lemma StartVoteKeep(s: Sys, j: JobId, a: Answers)
    ensures Works(s, StartVote(s, j, a), j)
  {
    hide Keeps;
    SelfKeeps(s, j);
    if j in s.books.jobs {
      var job := s.books.jobs[j];
      assert s.effects + [] == s.effects;
      if job.eligibility == NotMember { UpdateKeep(s, j, job.(voteStarted := true), []); }
      if job.eligibility == Eligible {
        assert Voted(j) in s.effects + [Voted(j)];
        UpdateKeep(s, j, job.(voteStarted := true), [Voted(j)]);
      }
    }
  }

  lemma AcceptKeep(s: Sys, j: JobId, generation: nat, digest: Hash, a: Answers)
    ensures Works(s, AcceptResult(s, j, generation, digest, a), j)
  {
    hide Keeps, Reduce, StartVote;
    SelfKeeps(s, j);
    var r := Reduce(s, j, LocalCompleted(generation, digest));
    if r.Reduced? {
      SetReducedKeep(s, j, r.job);
      var t := SetReduced(s, j, r.job);
      StartVoteKeep(t, j, a);
      WorksThen(s, t, StartVote(t, j, a), j);
    }
  }

  lemma RestoreKeep(s: Sys, j: JobId, a: Answers)
    requires j in s.books.acknowledged
    ensures Works(s, RestoreResult(s, j, a), j)
  {
    hide Keeps, AcceptResult;
    SelfKeeps(s, j);
    if j in s.disk.results && j in s.books.jobs {
      var t := UpdateJob(s, j, s.books.jobs[j].(computeStarted := true));
      StartedKeep(s, j, t);
      AcceptKeep(t, j, t.books.jobs[j].generation, s.disk.results[j], a);
      WorksThen(s, t, AcceptResult(t, j, t.books.jobs[j].generation, s.disk.results[j], a), j);
    }
  }

  lemma StartedKeep(s: Sys, j: JobId, t: Sys)
    requires j in s.books.acknowledged && j in s.disk.results && j in s.books.jobs
    requires t == UpdateJob(s, j, s.books.jobs[j].(computeStarted := true))
    ensures Works(s, Go(t), j)
  {
  }

  lemma ComputeKeep(s: Sys, j: JobId, a: Answers, target: nat)
    requires j in s.books.acknowledged
    ensures var f := EnsureCompute(s, j, a, target);
            Works(s, f, j) && (f.Go? ==> j in f.s.books.jobs && f.s.books.jobs[j].computeStarted)
  {
    hide Keeps;
    SelfKeeps(s, j);
    if j in s.books.jobs {
      var job := s.books.jobs[j];
      var e := Computed(j, job.generation, s.scanned.number, target, OfferOf(job), RetainedFor(s.disk, j));
      assert e in s.effects + [e];
      UpdateKeep(s, j, s.books.jobs[j].(computeStarted := true), [e]);
    }
  }

  lemma EligibilityKeep(c: Config, w: World, s: Sys, j: JobId, a: Answers)
    ensures Works(s, RefreshEligibility(c, w, s, j, a), j)
  {
    hide Keeps;
    SelfKeeps(s, j);
    if j in s.books.jobs && s.books.jobs[j].eligibility == PendingVote {
      var resolved := AdvanceEligibility(PendingVote, a.membership, w.member(j.intent));
      assert s.effects + [] == s.effects;
      if resolved.Some? { UpdateKeep(s, j, s.books.jobs[j].(eligibility := resolved.value), []); }
    }
  }

  lemma ObserveCompletedKeep(c: Config, s: Sys, j: JobId, r: JobRecord, a: Answers, target: nat)
    ensures Works(s, ObserveCompleted(c, s, j, r, a, target), j)
  {
    hide Keeps, Reduce;
    SelfKeeps(s, j);
    if j in s.books.jobs && r.completion.Some? {
      var digest := r.completion.value.digest;
      var t := UpdateJob(s, j, s.books.jobs[j].(canonical := Some(digest)));
      CanonicalKeep(s, j, t, digest);
      var reduced := Reduce(t, j, CanonicalCompleted(digest));
      if reduced.Reduced? {
        SetReducedKeep(t, j, reduced.job);
        WorksThen(s, t, Go(SetReduced(t, j, reduced.job)), j);
        WorksThen(s, t, Go(SetReduced(t, j, reduced.job).(fatal := true)), j);
      }
    }
  }

  lemma CanonicalKeep(s: Sys, j: JobId, t: Sys, digest: Hash)
    requires j in s.books.jobs && t == UpdateJob(s, j, s.books.jobs[j].(canonical := Some(digest)))
    ensures Works(s, Go(t), j)
  {
  }

  lemma ObserveTerminalKeep(s: Sys, j: JobId, reason: Reason)
    ensures Works(s, ObserveTerminal(s, j, reason), j)
  {
    hide Keeps, Reduce;
    SelfKeeps(s, j);
    var reduced := Reduce(s, j, CanonicalClosed(reason));
    if reduced.Reduced? {
      SetReducedKeep(s, j, reduced.job);
      var t := SetReduced(s, j, reduced.job);
      assert t.effects + [] == t.effects;
      if j in t.books.jobs {
        UpdateKeep(t, j, t.books.jobs[j].(cancelled := true), []);
        WorksThen(s, t, ObserveTerminal(s, j, reason), j);
      }
    }
  }

  lemma DeadlineKeep(s: Sys, j: JobId, deadline: nat, target: nat)
    ensures Works(s, NoteDeadline(s, j, deadline, target), j) &&
            NoteDeadline(s, j, deadline, target).s.books.jobs == s.books.jobs
  {
    hide Reduce;
  }

  lemma MaterializeKeep(s: Sys, i: Hash, j: JobId)
    ensures Works(s, Go(Materialize(s, i)), j)
  {
  }

  // ----- one request -----

  lemma ActOpenKeep(c: Config, w: World, s: Sys, j: JobId, r: JobRecord, discovered: bool, a: Answers, target: nat)
    requires j in s.books.acknowledged
    ensures var f := ActOn(c, w, s, j, r, IsVotingOpen, discovered, true, a, target, true);
            Works(s, f, j) && (f.Go? ==> j in f.s.books.jobs && f.s.books.jobs[j].computeStarted)
  {
    hide Keeps, RefreshEligibility, RestoreResult, EnsureCompute;
    EligibilityKeep(c, w, s, j, a);
    var f := RefreshEligibility(c, w, s, j, a);
    if f.Go? && j in s.books.jobs { ResumeKeep(s, f.s, j, a, target); }
  }

  /** Restoring a result and starting the computation, behind a step that went on. */
  lemma ResumeKeep(s: Sys, t: Sys, j: JobId, a: Answers, target: nat)
    requires j in s.books.acknowledged && Works(s, Go(t), j)
    ensures var restored := RestoreResult(t, j, a);
            && Works(s, restored, j)
            && (restored.Go? ==>
                  var f := EnsureCompute(restored.s, j, a, target);
                  Works(s, f, j) && (f.Go? ==> j in f.s.books.jobs && f.s.books.jobs[j].computeStarted))
    ensures var f := EnsureCompute(t, j, a, target);
            Works(s, f, j) && (f.Go? ==> j in f.s.books.jobs && f.s.books.jobs[j].computeStarted)
  {
    hide Keeps, RestoreResult, EnsureCompute;
    RestoreKeep(t, j, a);
    var restored := RestoreResult(t, j, a);
    WorksThen(s, t, restored, j);
    ComputeKeep(t, j, a, target);
    WorksThen(s, t, EnsureCompute(t, j, a, target), j);
    if restored.Go? {
      ComputeKeep(restored.s, j, a, target);
      WorksThen(s, restored.s, EnsureCompute(restored.s, j, a, target), j);
    }
  }

  lemma ActCompletedKeep(c: Config, w: World, s: Sys, j: JobId, r: JobRecord, discovered: bool, a: Answers,
      target: nat, driven: bool)
    requires j in s.books.acknowledged
    ensures Works(s, ActOn(c, w, s, j, r, IsCompleted, discovered, true, a, target, driven), j)
  {
    hide Keeps, ObserveCompleted, RestoreResult, EnsureCompute;
    ObserveCompletedKeep(c, s, j, r, a, target);
    var f := ObserveCompleted(c, s, j, r, a, target);
    if f.Go? { ResumeKeep(s, f.s, j, a, target); }
  }

  lemma ActKeep(c: Config, w: World, s: Sys, j: JobId, r: JobRecord, d: Disposition, discovered: bool, acked: bool,
      a: Answers, target: nat, driven: bool)
    requires acked ==> j in s.books.acknowledged
    ensures var f := ActOn(c, w, s, j, r, d, discovered, acked, a, target, driven);
            && Keeps(s, f.s, j) && !f.Retry?
            && (f.Skip? ==> f.s == s && (!acked || !driven)) && (f.Go? ==> SameExports(s.books, f.s.books))
            && (f.Go? && d.IsVotingOpen? ==> acked && j in f.s.books.jobs && f.s.books.jobs[j].computeStarted)
  {
    hide Keeps, RefreshEligibility, RestoreResult, EnsureCompute, ObserveCompleted, ObserveTerminal;
    SelfKeeps(s, j);
    match d
    case IsVotingOpen => if acked && driven { ActOpenKeep(c, w, s, j, r, discovered, a, target); }
    case IsCompleted => if acked { ActCompletedKeep(c, w, s, j, r, discovered, a, target, driven); }
    case IsClosed(reason, _) => ObserveTerminalKeep(s, j, reason);
    case _ =>
  }

  /** A tracked open job is computing if it is acknowledged, and otherwise waits on its persisted offer. */
  predicate Served(b: Books, j: JobId) {
    j in b.jobs ==> if j in b.acknowledged then b.jobs[j].computeStarted else j in b.pendingOffers
  }

  lemma AfterAckKeep(c: Config, w: World, s: Sys, l: Locator, r: JobRecord, d: Disposition, discovered: bool,
      a: Answers, target: nat, driven: bool)
    requires r.finalized.Some?
    ensures var f := AfterAck(c, w, s, l, r, d, discovered, a, target, driven);
            var j := JobOf(l);
            && Keeps(s, f.s, j)
            && ((f.Go? || f.Skip?) && driven && r.status == VotingOpen && d.IsVotingOpen? ==>
                  j in s.books.acknowledged || j in s.books.pendingOffers ==> Served(f.s.books, j))
  {
    hide Keeps, ActOn, NoteDeadline;
    var j := JobOf(l);
    SelfKeeps(s, j);
    var acked := r.status != Expired && j in s.books.acknowledged;
    MaterializeKeep(s, l.request.intentId, j);
    var t := if acked then Materialize(s, l.request.intentId) else s;
    ActKeep(c, w, t, j, r, d, discovered, acked, a, target, driven);
    var f := ActOn(c, w, t, j, r, d, discovered, acked, a, target, driven);
    KeepsTrans(s, t, f.s, j);
    DeadlineKeep(f.s, j, r.finalized.value.deadline, target);
    KeepsTrans(s, f.s, NoteDeadline(f.s, j, r.finalized.value.deadline, target).s, j);
  }

  lemma BindKeep(s: Sys, l: Locator, r: JobRecord, j: JobId)
    requires r.finalized.Some?
    ensures var f := BindJob(s, l, r);
            && Keeps(s, f.s, j) && (f.Go? || f.Halt?)
            && f.s.books == s.books.(intentJobs := f.s.books.intentJobs)
  {
  }

  /** A refresh touches no job but its request's own, keeps what stands, and a driven one serves an open job. */
  lemma RefreshOneKeep(c: Config, w: World, s: Sys, i: Hash, a: Answers, target: nat, driven: bool)
    requires i in s.books.requests &&
             (JobOf(s.books.requests[i]) in s.books.acknowledged ==> JobOf(s.books.requests[i]) in s.books.jobs)
    ensures var f := RefreshOne(c, w, s, i, a, target, driven);
            var j := JobOf(s.books.requests[i]);
            && Keeps(s, f.s, j)
            && ((f.Go? || f.Skip?) && driven && w.records(target, i).status == VotingOpen ==> Served(f.s.books, j))
  {
    hide Keeps, ExporterAcks, BindJob, Discover, ReconcileAck, AfterAck, SpecFor;
    var l := s.books.requests[i];
    var r := w.records(target, i);
    var j := JobOf(l);
    ExporterKeep(s, a.exporter, j);
    var s0 := ExporterAcks(s, a.exporter);
    MaterializeKeep(s0, i, j);
    KeepsTrans(s, s0, Materialize(s0, i), j);
    if r.finalized.Some? {
      BindKeep(s0, l, r, j);
      var bound := BindJob(s0, l, r);
      KeepsTrans(s, s0, bound.s, j);
      if bound.Go? { RefreshRestKeep(c, w, s, bound.s, i, l, r, a, target, driven); }
    }
  }

  /** The refresh of a bound job. */
  lemma RefreshRestKeep(c: Config, w: World, s: Sys, s1: Sys, i: Hash, l: Locator, r: JobRecord, a: Answers,
      target: nat, driven: bool)
    requires r.finalized.Some? && Keeps(s, s1, JobOf(l)) && ClassifyJob(r.status, true).Some?
    requires JobOf(l) in s1.books.acknowledged ==> JobOf(l) in s1.books.jobs
    ensures var j := JobOf(l);
            var d := ClassifyJob(r.status, true).value;
            var s2 := if j !in s1.books.jobs then Discover(c, s1, SpecFor(l, r), r.status, d, a) else Go(s1);
            && Keeps(s, s2.s, j)
            && (s2.Skip? ==> s2.s == s1 && j !in s1.books.jobs)
            && (s2.Go? ==>
                  var s3 := if r.status == Expired then Go(s2.s) else ReconcileAck(c, s2.s, j, a, target, driven);
                  && Keeps(s, s3.s, j) && !s3.Skip?
                  && (s3.Go? ==>
                        var f := AfterAck(c, w, s3.s, l, r, d, j !in s1.books.jobs, a, target, driven);
                        Keeps(s, f.s, j) && ((f.Go? || f.Skip?) && driven && r.status == VotingOpen ==>
                          Served(f.s.books, j))))
  {
    hide Keeps, Discover, ReconcileAck, AfterAck;
    var j := JobOf(l);
    var d := ClassifyJob(r.status, true).value;
    SelfKeeps(s1, j);
    if j !in s1.books.jobs { DiscoverKeep(c, s1, SpecFor(l, r), r.status, d, a); }
    var s2 := if j !in s1.books.jobs then Discover(c, s1, SpecFor(l, r), r.status, d, a) else Go(s1);
    KeepsTrans(s, s1, s2.s, j);
    if s2.Go? {
      SelfKeeps(s2.s, j);
      ReconcileKeep(c, s2.s, j, a, target, driven);
      var s3 := if r.status == Expired then Go(s2.s) else ReconcileAck(c, s2.s, j, a, target, driven);
      KeepsTrans(s, s2.s, s3.s, j);
      if s3.Go? {
        AfterAckKeep(c, w, s3.s, l, r, d, j !in s1.books.jobs, a, target, driven);
        KeepsTrans(s, s3.s, AfterAck(c, w, s3.s, l, r, d, j !in s1.books.jobs, a, target, driven).s, j);
      }
    }
  }

  // ----- the refresh -----

  /** Requests are kept under their own intent. */
  ghost predicate OwnIntents(requests: map<Hash, Locator>) {
    forall i :: i in requests ==> requests[i].request.intentId == i
  }

  lemma OtherServed(b: Books, to: Books, j: JobId, o: JobId)
    requires SameOthers(b, to, j) && o != j && Served(b, o)
    ensures Served(to, o)
  {
    OtherInMaps(b.jobs, to.jobs, j, o);
    OtherInMaps(b.pendingOffers, to.pendingOffers, j, o);
    assert o in to.acknowledged <==> o in to.acknowledged - {j};
    assert o in b.acknowledged <==> o in b.acknowledged - {j};
  }

  /** Refreshing keeps what stands and the requests, and a driven refresh serves every open request it went through. */
  lemma {:induction false} RefreshLoopStands(c: Config, w: World, s: Sys, order: seq<Hash>, answers: Hash -> Answers,
      target: nat, driven: bool)
    requires AllStand(s) && OwnIntents(s.books.requests)
    ensures var f := RefreshLoop(c, w, s, order, answers, target, driven);
            && AllStand(f.s) && f.s.books.requests == s.books.requests
            && (f.Go? && driven ==>
                  forall i :: i in order && i in s.books.requests && w.records(target, i).status == VotingOpen ==>
                                Served(f.s.books, JobOf(s.books.requests[i])))
    decreases |order|
  {
    hide AllStand, Keeps, RefreshOne, Served;
    if order != [] {
      var rest := order[..|order| - 1];
      var i := order[|order| - 1];
      RefreshLoopStands(c, w, s, rest, answers, target, driven);
      var before := RefreshLoop(c, w, s, rest, answers, target, driven);
      if before.Go? && i in before.s.books.requests {
        RefreshOneStands(c, w, before.s, i, answers(i), target, driven);
        var after := RefreshOne(c, w, before.s, i, answers(i), target, driven);
        forall o | o in order && o in s.books.requests && o != i && Served(before.s.books, JobOf(s.books.requests[o]))
          ensures Served(after.s.books, JobOf(s.books.requests[o]))
        {
          OtherServed(before.s.books, after.s.books, JobOf(s.books.requests[i]), JobOf(s.books.requests[o]));
        }
        assert forall o :: o in order ==> o in rest || o == i;
      }
    }
  }

  lemma RefreshOneStands(c: Config, w: World, s: Sys, i: Hash, a: Answers, target: nat, driven: bool)
    requires AllStand(s) && i in s.books.requests
    ensures var f := RefreshOne(c, w, s, i, a, target, driven);
            var j := JobOf(s.books.requests[i]);
            && AllStand(f.s) && SameOthers(s.books, f.s.books, j)
            && ((f.Go? || f.Skip?) && driven && w.records(target, i).status == VotingOpen ==> Served(f.s.books, j))
  {
    hide RefreshOne, Recorded, FlagsStand, Served, SameOthers;
    var j := JobOf(s.books.requests[i]);
    assert Stands(s, j);
    RefreshOneKeep(c, w, s, i, a, target, driven);
    AllStandAfter(s, RefreshOne(c, w, s, i, a, target, driven).s, j);
  }

  lemma RefreshStands(c: Config, w: World, s: Sys, answers: Hash -> Answers, target: nat, driven: bool)
    requires AllStand(s) && OwnIntents(s.books.requests)
    ensures var f := Refresh(c, w, s, answers, target, driven);
            && AllStand(f.s) && f.s.books.requests == s.books.requests
            && (f.Go? && driven ==> forall i :: i in s.books.requests && w.records(target, i).status == VotingOpen ==>
                                      Served(f.s.books, JobOf(s.books.requests[i])))
  {
    hide RefreshLoop, Recorded, FlagsStand, ExportsStand, Served;
    var t := s.(viewed := target);
    forall j: JobId ensures Stands(t, j) { assert Stands(s, j); }
    RefreshLoopStands(c, w, t, SortedKeys(s.books.requests.Keys), answers, target, driven);
  }

  // ----- outcomes, scanning, the flush -----

  lemma WriteStands(s: Sys, ws: seq<Write>)
    requires AllStand(s)
    ensures AllStand(WriteAll(s, ws))
  {
    hide AllStand, Keeps, WriteAll;
    var j := JobId(0, 0, 0);
    WritesKeep(s, ws, j);
    AllStandAfter(s, WriteAll(s, ws), j);
  }

  lemma OutcomeStands(s: Sys, o: Outcome, a: Answers)
    requires AllStand(s)
    ensures AllStand(HandleOutcome(s, o, a).s) && HandleOutcome(s, o, a).s.books.requests == s.books.requests
  {
    hide AllStand, Keeps, Reduce, AcceptResult, ApplyAll;
    var j := o.job;
    SelfKeeps(s, j);
    AllStandAfter(s, s, j);
    FatalStands(s);
    if j in s.books.reducer.jobs {
      match o
      case ComputeDone(_, generation, digest) =>
        WriteStands(s, [PutResult(j, digest)]);
        var t := CommitResult(s, j, digest).s;
        AcceptKeep(t, j, generation, digest, a);
        AllStandAfter(t, AcceptResult(t, j, generation, digest, a).s, j);
        AcceptRequests(t, j, generation, digest, a);
      case ComputeFailed(_, generation) => ReducedStands(s, j, LocalFailed(generation));
      case VoteDone(_, generation, success) => ReducedStands(s, j, VoteFinalized(generation, success));
      case VoteLost(_, generation) => ReducedStands(s, j, VoteFailed(generation));
    }
  }

  /** A computed result of a live job is durable once it is handled, and never replaces another digest. */
  lemma OutcomeCommits(s: Sys, o: Outcome, a: Answers)
    requires o.ComputeDone? && ProjectionOf(s.books, o.job) == Some(Active) &&
             s.books.reducer.jobs[o.job].terminal != Some(ExpiredReason)
    ensures var f := HandleOutcome(s, o, a);
            && (f.Go? ==> o.job in f.s.disk.results && f.s.disk.results[o.job] == o.digest)
            && (forall j :: j in s.disk.results ==> j in f.s.disk.results && f.s.disk.results[j] == s.disk.results[j])
  {
    hide Reduce, AcceptResult, ApplyAll;
    PutResultWrites(s.disk, o.job, o.digest);
    AcceptRequests(CommitResult(s, o.job, o.digest).s, o.job, o.generation, o.digest, a);
  }

  lemma PutResultWrites(d: Disk, j: JobId, digest: Hash)
    ensures ApplyAll(d, [PutResult(j, digest)]) == d.(results := d.results[j := digest])
  {
    hide ApplyAll;
    OneWrite(d, PutResult(j, digest));
  }

  lemma AcceptRequests(s: Sys, j: JobId, generation: nat, digest: Hash, a: Answers)
    ensures AcceptResult(s, j, generation, digest, a).s.books.requests == s.books.requests
    ensures AcceptResult(s, j, generation, digest, a).s.disk == s.disk
  {
    hide Reduce;
  }

  lemma FatalStands(s: Sys)
    requires AllStand(s)
    ensures AllStand(s.(fatal := true))
  {
    hide Recorded, FlagsStand, ExportsStand;
    forall j: JobId ensures Stands(s.(fatal := true), j) { assert Stands(s, j); }
  }

  lemma ReducedStands(s: Sys, j: JobId, event: Event)
    requires AllStand(s)
    ensures Reduce(s, j, event).Reduced? ==>
              var t := SetReduced(s, j, Reduce(s, j, event).job);
              AllStand(t) && AllStand(t.(fatal := true))
  {
    hide AllStand, Keeps, Reduce;
    if Reduce(s, j, event).Reduced? {
      var t := SetReduced(s, j, Reduce(s, j, event).job);
      SetReducedKeep(s, j, Reduce(s, j, event).job);
      AllStandAfter(s, t, j);
      FatalStands(t);
    }
  }

  lemma {:induction false} DrainStands(s: Sys, outcomes: seq<Outcome>, a: Answers)
    requires AllStand(s)
    ensures AllStand(Drain(s, outcomes, a).s) && Drain(s, outcomes, a).s.books.requests == s.books.requests
    decreases |outcomes|
  {
    hide AllStand, HandleOutcome;
    if outcomes != [] {
      DrainStands(s, outcomes[..|outcomes| - 1], a);
      var before := Drain(s, outcomes[..|outcomes| - 1], a);
      if before.Go? { OutcomeStands(before.s, outcomes[|outcomes| - 1], a); }
    }
  }

  /** Recording the next request and the scan, and where the run is, is nothing that stands. */
  lemma ElsewhereStands(s: Sys, t: Sys)
    requires AllStand(s) && t.disk == s.disk && t.base == s.base && t.effects == s.effects
    requires t.books == s.books.(requests := t.books.requests)
    ensures AllStand(t)
  {
    hide Recorded, FlagsStand;
    forall j: JobId ensures Stands(t, j) { assert Stands(s, j); }
  }

  lemma RecordStands(w: World, s: Sys)
    requires AllStand(s) && OwnIntents(s.books.requests)
    ensures AllStand(RecordRequest(w, s).s) && OwnIntents(RecordRequest(w, s).s.books.requests)
  {
    hide AllStand;
    ElsewhereStands(s, RecordRequest(w, s).s);
  }

  lemma CountStands(w: World, s: Sys, ok: bool)
    requires AllStand(s)
    ensures AllStand(ProjectNext(s, ok).s) && ProjectNext(s, ok).s.books == s.books
    ensures AllStand(RecordScanned(w, s).s) && RecordScanned(w, s).s.books == s.books
  {
    hide AllStand, ApplyAll;
    WriteStands(s, [Project(s.scanned.number + 1)]);
    ElsewhereStands(s, RecordScanned(w, s).s);
  }

  lemma TakeFrameStands(w: World, s: Sys, ok: bool)
    requires AllStand(s) && OwnIntents(s.books.requests)
    ensures AllStand(TakeFrame(w, s, ok).s) && OwnIntents(TakeFrame(w, s, ok).s.books.requests)
  {
    hide AllStand, OwnIntents, RecordRequest, ProjectNext, RecordScanned;
    RecordStands(w, s);
    var r := RecordRequest(w, s).s;
    CountStands(w, r, ok);
    CountStands(w, ProjectNext(r, ok).s, ok);
  }

  lemma {:induction false} ScanFramesStands(c: Config, w: World, s: Sys, frames: seq<FrameAnswers>, target: nat)
    requires AllStand(s) && OwnIntents(s.books.requests)
    ensures var f := ScanFrames(c, w, s, frames, target);
            AllStand(f.s) && OwnIntents(f.s.books.requests)
    decreases |frames|
  {
    hide AllStand, OwnIntents, TakeFrame, Refresh;
    if frames != [] {
      ScanFramesStands(c, w, s, frames[..|frames| - 1], target);
      var before := ScanFrames(c, w, s, frames[..|frames| - 1], target).s;
      var a := frames[|frames| - 1];
      TakeFrameStands(w, before, a.projectionOk);
      RefreshStands(c, w, TakeFrame(w, before, a.projectionOk).s, a.jobs, target, false);
    }
  }

  lemma {:induction false} PrepareStands(c: Config, s: Sys, order: seq<Hash>, closed: nat)
    requires AllStand(s)
    ensures AllStand(PrepareAll(c, s, order, closed).s) && PrepareAll(c, s, order, closed).s.books == s.books
    decreases |order|
  {
    hide AllStand, PlanPrepare, RequestClosed, ApplyAll;
    if order != [] {
      PrepareStands(c, s, order[..|order| - 1], closed);
      var before := PrepareAll(c, s, order[..|order| - 1], closed).s;
      var i := order[|order| - 1];
      if i in before.books.intentJobs && before.books.intentJobs[i] in before.books.jobs {
        WriteStands(before, PlanPrepare(before.disk, OfferOf(before.books.jobs[before.books.intentJobs[i]]),
          closed).writes);
      }
    }
  }

  lemma {:induction false} CompleteStands(s: Sys, listing: seq<Key>, closed: nat)
    requires AllStand(s)
    ensures AllStand(CompleteAll(s, listing, closed).s) && CompleteAll(s, listing, closed).s.books == s.books
    decreases |listing|
  {
    hide AllStand, PlanComplete, ApplyAll;
    if listing != [] {
      CompleteStands(s, listing[..|listing| - 1], closed);
      var before := CompleteAll(s, listing[..|listing| - 1], closed).s;
      WriteStands(before, PlanComplete(before.disk, listing[|listing| - 1], closed).writes);
    }
  }

  lemma PruneOneStands(s: Sys, i: Hash)
    requires AllStand(s)
    ensures AllStand(s.(books := PruneOne(s.books, i)))
  {
    hide Recorded, FlagsStand;
    var t := s.(books := PruneOne(s.books, i));
    forall j: JobId ensures Stands(t, j) { assert Stands(s, j); }
  }

  lemma {:induction false} PruneStands(s: Sys, closing: seq<Hash>)
    requires AllStand(s) && OwnIntents(s.books.requests)
    ensures AllStand(PruneAll(s, closing).s) && OwnIntents(PruneAll(s, closing).s.books.requests)
    decreases |closing|
  {
    hide AllStand;
    if closing != [] {
      PruneStands(s, closing[..|closing| - 1]);
      PruneOneStands(PruneAll(s, closing[..|closing| - 1]).s, closing[|closing| - 1]);
    }
  }

  lemma FlushStands(c: Config, s: Sys, first: seq<Key>, second: seq<Key>)
    requires AllStand(s) && OwnIntents(s.books.requests)
    ensures AllStand(Flush(c, s, first, second).s) && OwnIntents(Flush(c, s, first, second).s.books.requests)
  {
    hide AllStand, OwnIntents, PrepareAll, CompleteAll, PruneAll, FlushTarget, ClosingIntents, FinishFlush;
    var order := SortedKeys(s.books.requests.Keys);
    var current := s.disk.closure.number;
    var target := FlushTarget(s);
    PrepareStands(c, s, order, current);
    PrepareStands(c, s, order, target.number);
    var p := PrepareAll(c, s, order, current).s;
    var q := PrepareAll(c, s, order, target.number).s;
    CompleteStands(p, first, current);
    CompleteStands(q, first, current);
    var r := CompleteAll(p, first, current).s;
    PruneStands(r, ClosingIntents(r.books, SortedKeys(r.books.requests.Keys), current));
    FinishFlushStands(CompleteAll(q, first, current).s, target, second);
  }

  lemma FinishFlushStands(s: Sys, target: Checkpoint, second: seq<Key>)
    requires AllStand(s) && OwnIntents(s.books.requests)
    ensures AllStand(FinishFlush(s, target, second).s) && OwnIntents(FinishFlush(s, target, second).s.books.requests)
  {
    hide AllStand, OwnIntents, CompleteAll, PruneAll, ClosingIntents, ApplyAll;
    WriteStands(s, [AdvanceClosure(target, s.viewed)]);
    var t := WriteAll(s, [AdvanceClosure(target, s.viewed)]);
    CompleteStands(t, second, target.number);
    var u := CompleteAll(t, second, target.number).s;
    var closing := ClosingIntents(u.books, SortedKeys(u.books.requests.Keys), target.number);
    PruneStands(u, closing);
    WriteStands(PruneAll(u, closing).s, [Publish(target)]);
  }

  // ----- the tick and startup -----

  lemma AnnounceStands(s: Sys, target: nat)
    requires AllStand(s)
    ensures AllStand(Announce(s, target).s) && Announce(s, target).s.books == s.books
  {
    hide AllStand, ApplyAll;
    WriteStands(s, [Publish(s.disk.closure)]);
    ElsewhereStands(WriteAll(s, [Publish(s.disk.closure)]), WriteAll(s, [Publish(s.disk.closure)]).(announced := true));
  }

  lemma WorkStands(c: Config, w: World, s: Sys, t: TickAnswers, target: nat)
    requires AllStand(s) && OwnIntents(s.books.requests)
    ensures AllStand(Work(c, w, s, t, target).s) && OwnIntents(Work(c, w, s, t, target).s.books.requests)
  {
    hide AllStand, OwnIntents, ScanFrames, Refresh, Flush;
    ScanFramesStands(c, w, s, t.frames, target);
    var scanned := ScanFrames(c, w, s, t.frames, target).s;
    FlushStands(c, scanned, t.first, t.second);
    RefreshStands(c, w, scanned, t.driven, target, true);
    var refreshed := Refresh(c, w, scanned, t.driven, target, true).s;
    ElsewhereStands(refreshed, refreshed.(recoveryTarget := None));
    FlushStands(c, refreshed.(recoveryTarget := None), t.first, t.second);
  }

  lemma FreshStands(s: Sys)
    requires AllStand(s)
    ensures AllStand(s.(base := s.disk, wal := []))
  {
    hide Recorded, FlagsStand, ExportsStand;
    forall j: JobId ensures Stands(s.(base := s.disk, wal := []), j) { assert Stands(s, j); }
  }

  lemma TickStands(c: Config, w: World, s: Sys, t: TickAnswers)
    requires AllStand(s) && OwnIntents(s.books.requests)
    ensures AllStand(Tick(c, w, s, t).s) && OwnIntents(Tick(c, w, s, t).s.books.requests)
  {
    hide AllStand, OwnIntents, Drain, Announce, Work, Flush;
    FreshStands(s);
    DrainStands(s.(base := s.disk, wal := []), t.outcomes, t.outcomeAnswers);
    var drained := Drain(s.(base := s.disk, wal := []), t.outcomes, t.outcomeAnswers).s;
    FlushStands(c, drained, t.first, t.second);
    var sampled := SampleTarget(drained, t.head);
    if sampled.Some? {
      ElsewhereStands(drained, drained.(recoveryTarget := sampled));
      AnnounceStands(drained.(recoveryTarget := sampled), sampled.value);
      WorkStands(c, w, Announce(drained.(recoveryTarget := sampled), sampled.value).s, t, sampled.value);
    }
  }

  lemma RestartStands(c: Config, disk: Disk)
    requires Recorded(disk)
    ensures AllStand(Restart(c, disk)) && OwnIntents(Restart(c, disk).books.requests)
  {
  }

  lemma StartupStands(c: Config, disk: Disk, listing: seq<Key>)
    requires Recorded(disk)
    ensures AllStand(Startup(c, disk, listing).s) && OwnIntents(Startup(c, disk, listing).s.books.requests)
  {
    hide AllStand, OwnIntents, CompleteAll;
    RestartStands(c, disk);
    CompleteStands(Restart(c, disk), listing, disk.closure.number);
  }
}
