/**
 The observer as it runs: `EmbeddedOcompExExV1` with its maps, its reducer and its disk,
 updated in place. Every method ends as the function of the same step says, and leaves the
 state that function gives.
 */
module OcompRuntime {
  import opened Basics
  import opened OcompTypes
  import opened OcompWorld
  import opened OcompReducer
  import opened OcompSpool
  import opened OcompObserver
  import OcompRuns

  datatype End = Proceed | Skipped | Later | Stopped

  function FlowOf(end: End, s: Sys): Flow {
    match end
    case Proceed => Go(s)
    case Skipped => Skip(s)
    case Later => Retry(s)
    case Stopped => Halt(s)
  }

  function AfterAnswer(reply: Reply): End {
    match reply
    case Accepted => Proceed
    case Outage => Later
    case Refusal => Stopped
  }

  class Observer {
    const config: Config
    const world: World
    const state: EmbeddedJobs
    var requests: map<Hash, Locator>
    var materialized: set<Hash>
    var jobs: map<JobId, RuntimeJob>
    var intentJobs: map<Hash, JobId>
    var pendingOffers: map<JobId, OfferRef>
    var acknowledged: set<JobId>
    var scanned: Checkpoint
    var recoveryTarget: Option<nat>
    var announced: bool
    var fatal: bool
    var effects: seq<Effect>
    var disk: Disk
    ghost var base: Disk
    ghost var wal: seq<Write>
    var viewed: nat

    ghost function State(): Sys
      reads this, state
    {
      Sys(base, wal, disk, Books(requests, materialized, jobs, intentJobs, pendingOffers, acknowledged, state.View()),
          scanned, recoveryTarget, announced, viewed, fatal, effects)
    }

    ghost predicate Valid()
      reads this, state
    {
      state.Valid() && state.mode == config.policy
    }

    /** A process that starts on a disk. */
    constructor (config: Config, world: World, disk: Disk)
      ensures Valid() && fresh(state) && this.config == config && this.world == world &&
              State() == Restart(config, disk)
    {
      this.config := config;
      this.world := world;
      state := new EmbeddedJobs(config.policy);
      requests, materialized, jobs, intentJobs := map[], {}, map[], map[];
      pendingOffers, acknowledged := map[], {};
      scanned, recoveryTarget, announced, fatal, effects := disk.closure, None, false, false, [];
      this.disk := disk;
      base, wal, viewed := disk, [], 0;
    }

    // ----- durable writes -----

    method Perform(p: Plan) returns (end: End)
      modifies this
      ensures FlowOf(end, State()) == OcompObserver.Perform(old(State()), p)
    {
      disk := ApplyAll(disk, p.writes);
      wal := wal + p.writes;
      return if p.ok then Proceed else Stopped;
    }

    method WriteOne(w: Write)
      modifies this
      ensures State() == WriteAll(old(State()), [w])
    {
      disk := ApplyAll(disk, [w]);
      wal := wal + [w];
    }

    /** The exporter acknowledges offers on its own, between the observer's steps. */
    method Exporter(acks: seq<Ack>)
      modifies this
      ensures State() == ExporterAcks(old(State()), acks)
    {
      ghost var s := State();
      for n := 0 to |acks|
        invariant State() == ExporterAcks(s, acks[..n])
      {
        assert acks[..n + 1][..n] == acks[..n];
        var p := PlanAck(disk, acks[n]);
        disk := ApplyAll(disk, p.writes);
        wal := wal + p.writes;
      }
      assert acks[..|acks|] == acks;
    }

    /** The reducer takes an event of a job. */
    method ReduceEvent(j: JobId, event: Event) returns (r: Reduced)
      requires Valid()
      modifies state
      ensures Valid() && r == Reduce(old(State()), j, event)
      ensures State() == if r.Reduced? then SetReduced(old(State()), j, r.job) else old(State())
    {
      hide ReduceJob, ReducerOk;
      r := state.ReduceEvent(j, event);
    }

    // ----- scanning -----

    /** `record_request_observation`. */
    method RecordRequestObservation() returns (end: End)
      modifies this
      ensures FlowOf(end, State()) == RecordRequest(world, old(State()))
    {
      var h := scanned.number + 1;
      if world.frames(h).observation.None? { return Proceed; }
      var l := LocatorAt(world, h);
      var i := l.request.intentId;
      var r := world.records(h, i);
      if r.intentHeight != h || r.request != l.request { return Stopped; }
      if i in requests { return if requests[i] == l then Proceed else Stopped; }
      requests := requests[i := l];
      return Proceed;
    }

    /** `record_scanned_frame`. */
    method RecordScannedFrame() returns (end: End)
      modifies this
      ensures FlowOf(end, State()) == RecordScanned(world, old(State()))
    {
      var h := scanned.number + 1;
      if h > U64_MAX || world.frames(h).parent != scanned.hash { return Stopped; }
      scanned := Checkpoint(h, world.frames(h).hash);
      return Proceed;
    }

    // ----- discovering a job -----

    method Bind(l: Locator, r: JobRecord) returns (end: End)
      requires r.finalized.Some?
      modifies this
      ensures FlowOf(end, State()) == BindJob(old(State()), l, r)
    {
      var f := r.finalized.value;
      if f.blockHash != l.blockHash || f.stateRoot != l.stateRoot || f.jobId != JobOf(l) { return Stopped; }
      var i := l.request.intentId;
      var existing := if i in intentJobs then Some(intentJobs[i]) else None;
      intentJobs := intentJobs[i := f.jobId];
      return if existing.Some? && existing.value != f.jobId then Stopped else Proceed;
    }

    /** The loop over the retained candidates. */
    method Pick(spec: JobSpec, candidates: seq<Candidate>)
        returns (end: End, selected: Option<nat>, fallback: Option<nat>)
      modifies this
      ensures OcompObserver.Pick(FlowOf(end, State()), selected, fallback) ==
              PickSource(config, old(State()), spec, candidates)
    {
      hide PlanPending, LookupPending, LookupAck;
      ghost var s := State();
      end, selected, fallback := Proceed, None, None;
      for n := 0 to |candidates|
        invariant end == Proceed
        invariant OcompObserver.Pick(Go(State()), selected, fallback) == PickSource(config, s, spec, candidates[..n])
      {
        assert candidates[..n + 1][..n] == candidates[..n];
        ghost var before := (selected, fallback);
        var stopped;
        stopped, selected, fallback := Probe(spec, candidates[n], selected, fallback);
        if stopped {
          PickStays(config, s, spec, candidates, n + 1);
          end := Stopped;
          return;
        }
      }
      assert candidates[..|candidates|] == candidates;
    }

    method Probe(spec: JobSpec, last: Candidate, selected: Option<nat>, fallback: Option<nat>)
      returns (stopped: bool, selected': Option<nat>, fallback': Option<nat>)
      modifies this
      ensures OcompObserver.Pick(FlowOf(if stopped then Stopped else Proceed, State()), selected', fallback')
              == PickNext(config, OcompObserver.Pick(Go(old(State())), selected, fallback), spec, last)
    {
      hide PlanPending, LookupPending, LookupAck;
      selected', fallback' := selected, fallback;
      var probe := OfferRef(last.generation, spec);
      var k := KeyOf(probe);
      if !last.agrees || spec.bundle !in config.bundles || last.generation == 0 { stopped := true; return; }
      var pending := LookupPending(disk, k);
      var end := Perform(PlanPending(disk, k));
      if end.Stopped? { stopped := true; return; }
      var ack := LookupAck(disk, k);
      if ack.Unreadable? { stopped := true; return; }
      stopped := false;
      var authority := if pending.Found? then Some(pending.value) else if ack.Found? then Some(ack.value.ref) else None;
      if authority == Some(probe) {
        if selected.Some? { stopped := true; } else { selected' := Some(last.generation); }
      } else if fallback.None? {
        fallback' := Some(last.generation);
      }
    }

    method Track(spec: JobSpec, source: nat) returns (end: End)
      requires Valid()
      modifies this, state
      ensures Valid() && FlowOf(end, State()) == TrackJob(config, old(State()), spec, source)
    {
      var o := state.ObserveJob(spec.jobId, spec.deadline);
      if o.Refused? { return Stopped; }
      jobs := jobs[spec.jobId := RuntimeJob(spec, source, o.generation, false, false,
                                            if config.policy == Validator then PendingVote
                                              else NotMember, false, None)];
      return Proceed;
    }

    method Install(spec: JobSpec, candidates: seq<Candidate>) returns (end: End)
      requires Valid()
      modifies this, state
      ensures Valid() && FlowOf(end, State()) == InstallJob(config, old(State()), spec, candidates)
    {
      hide PickSource, TrackJob, ReducerOk;
      var selected, fallback;
      end, selected, fallback := Pick(spec, candidates);
      if !end.Proceed? { return; }
      if selected.Some? { end := Track(spec, selected.value); }
      else if fallback.Some? { end := Track(spec, fallback.value); }
      else { end := Stopped; }
    }

    /** `confirm_canonical_export_ack`. */
    method ConfirmExportAck(j: JobId, ack: Ack, reply: Reply) returns (end: End)
      modifies this
      ensures FlowOf(end, State()) == Confirm(old(State()), j, ack, reply)
    {
      hide ApplyAll;
      end := AfterAnswer(if reply == Accepted && j in disk.retained && disk.retained[j] != ack then Refusal else reply);
      if end.Proceed? { WriteOne(RetainAck(j, ack)); }
    }

    method NoteAdopted(claim: OfferRef, status: Status, terms: Option<Export>)
      modifies this
      ensures State() == Adopt(old(State()), claim, status, terms)
    {
      effects := effects + [Adopted(claim.spec.jobId, claim, status, terms, SpoolAck(disk, KeyOf(claim)))];
    }

    /** `verify_released_export_ack`. */
    method VerifyReleasedExportAck(spec: JobSpec, status: Status, released: Released, confirm: Reply) returns (end: End)
      requires released.Released?
      modifies this
      ensures FlowOf(end, State()) == VerifyReleased(config, old(State()), spec, status, released, confirm)
    {
      hide Adopt, Confirm, LookupAck;
      var probe := OfferRef(released.source, spec);
      if !released.agrees || released.source == 0 { return Stopped; }
      if released.authority.None? {
        if status != Expired {
          var ack := LookupAck(disk, KeyOf(probe));
          if spec.bundle !in config.bundles || !ack.Found? || ack.value.ref != probe { return Stopped; }
          end := ConfirmExportAck(spec.jobId, ack.value, confirm);
          if !end.Proceed? { return; }
        }
        NoteAdopted(probe, status, None);
        return Proceed;
      }
      var authority := released.authority.value;
      var exported := OfferRef(authority.source, spec);
      var recorded := LookupAck(disk, KeyOf(exported));
      if spec.bundle !in config.bundles || authority.source == 0 || !recorded.Found? { return Stopped; }
      if recorded.value != Ack(exported, authority.lease, authority.manifest) { return Stopped; }
      NoteAdopted(exported, status, Some(authority));
      return Proceed;
    }

    method DiscoverJob(spec: JobSpec, status: Status, d: Disposition, a: Answers) returns (end: End)
      requires Valid()
      modifies this, state
      ensures Valid() && FlowOf(end, State()) == Discover(config, old(State()), spec, status, d, a)
    {
      hide InstallJob, OcompObserver.DiscoverUnbound, ReducerOk;
      match a.discovery
      case NotInstalled => return Skipped;
      case DiscoveryFailed(reply) => return AfterAnswer(if reply == Accepted then Refusal else reply);
      case Retained(candidates) => end := Install(spec, candidates);
      case Unbound(_, _, _, _) => end := DiscoverUnbound(spec, status, d, a);
    }

    method DiscoverUnbound(spec: JobSpec, status: Status, d: Disposition, a: Answers) returns (end: End)
      requires Valid() && a.discovery.Unbound?
      modifies this, state
      ensures Valid() && FlowOf(end, State()) == OcompObserver.DiscoverUnbound(config, old(State()), spec, status, d, a)
    {
      hide InstallJob, VerifyReleased, ReducerOk;
      match a.discovery.released
      case ReleaseUnreadable(reply) => return AfterAnswer(if reply == Accepted then Refusal else reply);
      case Released(_, _, _) =>
        if !d.IsClosed? && !d.IsCompleted? { return Stopped; }
        end := AdoptReleased(spec, status, a.discovery.released, a.confirm);
      case NotReleased =>
        end := AfterAnswer(a.discovery.bind);
        if !end.Proceed? { return; }
        end := AfterAnswer(a.discovery.rebound);
        if !end.Proceed? { return; }
        end := Install(spec, a.discovery.candidates);
    }

    method AdoptReleased(spec: JobSpec, status: Status, released: Released, confirm: Reply) returns (end: End)
      requires Valid() && released.Released?
      modifies this, state
      ensures Valid()
      ensures var f := VerifyReleased(config, old(State()), spec, status, released, confirm);
              FlowOf(end, State()) == if f.Go? then InstallJob(config, f.s, spec, [Candidate(released.source, true)])
                else f
    {
      hide InstallJob, VerifyReleased, ReducerOk;
      end := VerifyReleasedExportAck(spec, status, released, confirm);
      if end.Proceed? { end := Install(spec, [Candidate(released.source, true)]); }
    }

    /** A driven refresh persists the offer before anything waits for its ACK. */
    method PersistOffer(j: JobId, target: nat, driven: bool) returns (end: End)
      requires j in jobs
      modifies this
      ensures FlowOf(end, State()) == EnsureOffer(old(State()), j, target, driven)
    {
      hide PlanOffer;
      if j in pendingOffers || !driven { return Proceed; }
      var offer := OfferOf(jobs[j]);
      end := Perform(PlanOffer(disk, offer));
      if !end.Proceed? { return; }
      pendingOffers := pendingOffers[j := offer];
      effects := effects + [Offered(j, scanned.number, target)];
    }

    method MarkAcknowledged(j: JobId)
      modifies this
      ensures var s := old(State());
              State() == s.(books := s.books.(acknowledged := s.books.acknowledged + {j},
                pendingOffers := s.books.pendingOffers - {j}))
    {
      acknowledged := acknowledged + {j};
      pendingOffers := pendingOffers - {j};
    }

    /** `reconcile_export_ack`. */
    method ReconcileExportAck(j: JobId, a: Answers, target: nat, driven: bool) returns (end: End)
      modifies this
      ensures FlowOf(end, State()) == ReconcileAck(config, old(State()), j, a, target, driven)
    {
      hide EnsureOffer, LookupAck, Confirm;
      if j in acknowledged { return Proceed; }
      if j !in jobs { return Stopped; }
      var job := jobs[j];
      if job.spec.bundle !in config.bundles || job.source == 0 { return Stopped; }
      end := PersistOffer(j, target, driven);
      if !end.Proceed? { return; }
      var offer := if j in pendingOffers then pendingOffers[j] else OfferOf(job);
      var ack := LookupAck(disk, KeyOf(offer));
      if ack.Unreadable? { return Stopped; }
      if ack.Absent? { return Proceed; }
      if ack.value.ref != offer { return Stopped; }
      end := ConfirmExportAck(j, ack.value, a.confirm);
      if end.Proceed? { MarkAcknowledged(j); }
    }

    // ----- local results, votes, computations -----

    /** `accept_local_result`. */
    method AcceptLocalResult(j: JobId, generation: nat, digest: Hash, a: Answers) returns (end: End)
      requires Valid()
      modifies this, state
      ensures Valid() && FlowOf(end, State()) == AcceptResult(old(State()), j, generation, digest, a)
    {
      hide ReduceJob;
      var reduced := ReduceEvent(j, LocalCompleted(generation, digest));
      if reduced.Rejected? { return Stopped; }
      match reduced.action
      case SubmitVote(_) =>
        end := SubmitLocalVote(j, a);
      case ReleaseProgress => return if j !in jobs || jobs[j].canonical.None? || !a.exactOk then Stopped else Proceed;
      case FatalMismatch(_, _) => fatal := true; return Proceed;
      case AwaitCanonical => return Proceed;
      case ProtocolOwned => return Proceed;
      case _ => return Stopped;
    }

    method SubmitLocalVote(j: JobId, a: Answers) returns (end: End)
      modifies this
      ensures FlowOf(end, State()) == StartVote(old(State()), j, a)
    {
      if j !in jobs { return Stopped; }
      match jobs[j].eligibility
      case PendingVote => return Proceed;
      case NotMember =>
        jobs := jobs[j := jobs[j].(voteStarted := true)];
        return Proceed;
      case Eligible =>
        if jobs[j].voteStarted { return Proceed; }
        if !a.spawnOk { return Stopped; }
        jobs := jobs[j := jobs[j].(voteStarted := true)];
        effects := effects + [Voted(j)];
        return Proceed;
    }

    /** `restore_local_result`. */
    method RestoreLocalResult(j: JobId, a: Answers) returns (end: End)
      requires Valid()
      modifies this, state
      ensures Valid() && FlowOf(end, State()) == RestoreResult(old(State()), j, a)
    {
      hide AcceptResult;
      if j !in disk.results { return Proceed; }
      if j !in jobs { return Stopped; }
      jobs := jobs[j := jobs[j].(computeStarted := true)];
      end := AcceptLocalResult(j, jobs[j].generation, disk.results[j], a);
    }

    /** `ensure_compute_started`. */
    method EnsureComputeStarted(j: JobId, a: Answers, target: nat) returns (end: End)
      modifies this
      ensures FlowOf(end, State()) == EnsureCompute(old(State()), j, a, target)
    {
      if j !in jobs { return Stopped; }
      if jobs[j].computeStarted { return Proceed; }
      if !a.spawnOk { return Stopped; }
      effects := effects + [Computed(j, jobs[j].generation, scanned.number, target, OfferOf(jobs[j]),
        RetainedFor(disk, j))];
      jobs := jobs[j := jobs[j].(computeStarted := true)];
      return Proceed;
    }

    /** `refresh_vote_eligibility`; `became` tells whether the job became eligible just now. */
    method RefreshVoteEligibility(j: JobId, a: Answers) returns (end: End, became: bool)
      modifies this
      ensures FlowOf(end, State()) == RefreshEligibility(config, world, old(State()), j, a)
      ensures end.Proceed? && j in old(jobs) ==>
                became == (j in jobs && old(jobs)[j].eligibility == PendingVote && jobs[j].eligibility == Eligible)
    {
      became := false;
      if config.policy != Validator { return Proceed, false; }
      if j !in jobs { return Stopped, false; }
      if jobs[j].eligibility != PendingVote { return Proceed, false; }
      if !a.keyKnown { return Stopped, false; }
      var resolved := AdvanceEligibility(PendingVote, a.membership, world.member(j.intent));
      if resolved.None? { return Stopped, false; }
      jobs := jobs[j := jobs[j].(eligibility := resolved.value)];
      return Proceed, resolved.value == Eligible;
    }

    /** `observe_completed`. */
    method ObserveCompletedJob(j: JobId, r: JobRecord, a: Answers, target: nat) returns (end: End)
      requires Valid()
      modifies this, state
      ensures Valid() && FlowOf(end, State()) == ObserveCompleted(config, old(State()), j, r, a, target)
    {
      hide Reduce, ReducerOk;
      if j in jobs && jobs[j].canonical.Some? { return Proceed; }
      if r.completion.None? || r.completion.value.quorumHeight > target || !a.quorumOk || j !in jobs { return Stopped; }
      var digest := r.completion.value.digest;
      jobs := jobs[j := jobs[j].(canonical := Some(digest))];
      var reduced := ReduceEvent(j, CanonicalCompleted(digest));
      if reduced.Rejected? { return Stopped; }
      if reduced.action.ReleaseProgress? && config.policy == FullNode && !a.exactOk { return Stopped; }
      if reduced.action.FatalMismatch? { fatal := true; }
      return Proceed;
    }

    /** `observe_terminal`. */
    method ObserveTerminalJob(j: JobId, reason: Reason) returns (end: End)
      requires Valid()
      modifies this, state
      ensures Valid() && FlowOf(end, State()) == ObserveTerminal(old(State()), j, reason)
    {
      hide Reduce, ReducerOk;
      var reduced := ReduceEvent(j, CanonicalClosed(reason));
      if reduced.Rejected? { return Stopped; }
      if j in jobs { jobs := jobs[j := jobs[j].(cancelled := true)]; }
      return Proceed;
    }

    /** What a refresh does for the canonical disposition. */
    method Act(j: JobId, r: JobRecord, d: Disposition, discovered: bool, acked: bool, a: Answers, target: nat,
        driven: bool) returns (end: End)
      requires Valid()
      modifies this, state
      ensures Valid() && FlowOf(end, State()) ==
              ActOn(config, world, old(State()), j, r, d, discovered, acked, a, target, driven)
    {
      hide RefreshEligibility, RestoreResult, EnsureCompute, ObserveCompleted, ObserveTerminal;
      match d
      case IsVotingOpen =>
        end := ActOnVotingOpen(j, r, discovered, acked, a, target, driven);
      case IsCompleted =>
        end := ActOnCompleted(j, r, discovered, acked, a, target, driven);
      case IsClosed(reason, _) =>
        end := ObserveTerminalJob(j, reason);
      case WaitsForOpen => return Proceed;
      case WaitsForFinality => return Stopped;
    }

    method ActOnVotingOpen(j: JobId, r: JobRecord, discovered: bool, acked: bool, a: Answers, target: nat,
        driven: bool) returns (end: End)
      requires Valid()
      modifies this, state
      ensures Valid() && FlowOf(end, State()) ==
              ActOn(config, world, old(State()), j, r, IsVotingOpen, discovered, acked, a, target, driven)
    {
      hide RefreshEligibility, RestoreResult, EnsureCompute;
      if !acked || !driven { return Skipped; }
      ghost var known := j in jobs;
      var became;
      end, became := RefreshVoteEligibility(j, a);
      if !end.Proceed? { return; }
      EligibilityKeepsJobs(config, world, old(State()), j, a);
      if j !in jobs { return Stopped; }
      if RestoreWhen(IsVotingOpen, config.policy, discovered, became, jobs[j].computeStarted) == BeforeCompute {
        end := RestoreLocalResult(j, a);
        if !end.Proceed? { return; }
      }
      end := EnsureComputeStarted(j, a, target);
    }

    method ActOnCompleted(j: JobId, r: JobRecord, discovered: bool, acked: bool, a: Answers, target: nat, driven: bool)
        returns (end: End)
      requires Valid()
      modifies this, state
      ensures Valid() && FlowOf(end, State()) ==
              ActOn(config, world, old(State()), j, r, IsCompleted, discovered, acked, a, target, driven)
    {
      hide ObserveCompleted, RestoreResult, EnsureCompute;
      if !acked { return Skipped; }
      end := ObserveCompletedJob(j, r, a, target);
      if !end.Proceed? || config.policy != FullNode { return; }
      if j !in jobs { return Stopped; }
      if RestoreWhen(IsCompleted, config.policy, discovered, false, jobs[j].computeStarted) == AfterCanonicalCompleted {
        end := RestoreLocalResult(j, a);
        if !end.Proceed? { return; }
      }
      end := EnsureComputeStarted(j, a, target);
    }

    method NoteDeadlineReached(j: JobId, deadline: nat, target: nat) returns (end: End)
      requires Valid()
      modifies state
      ensures Valid() && FlowOf(end, State()) == NoteDeadline(old(State()), j, deadline, target)
    {
      hide ReduceJob;
      if target < deadline || j !in state.jobs || !Live(state.jobs[j].state) { return Proceed; }
      var reduced := ReduceEvent(j, DeadlineReached);
      return if reduced.Rejected? then Stopped else Proceed;
    }

    /** One iteration of `refresh_jobs`. */
    method RefreshRequest(i: Hash, a: Answers, target: nat, driven: bool) returns (end: End)
      requires Valid() && i in requests
      modifies this, state
      ensures Valid() && FlowOf(end, State()) == RefreshOne(config, world, old(State()), i, a, target, driven)
    {
      hide ExporterAcks, BindJob, Discover, ReconcileAck, AfterAck;
      var l := requests[i];
      Exporter(a.exporter);
      var r := world.records(target, i);
      var d := ClassifyJob(r.status, r.finalized.Some?);
      if !a.readOk || d.None? { return Stopped; }
      if d.value.WaitsForFinality? { return Skipped; }
      if d.value.IsClosed? && !d.value.hasFinalized {
        materialized := materialized + {i};
        return Skipped;
      }
      var j := JobOf(l);
      end := Bind(l, r);
      if !end.Proceed? { return; }
      var discovered := j !in jobs;
      if discovered {
        end := DiscoverJob(SpecFor(l, r), r.status, d.value, a);
        if !end.Proceed? { return; }
      }
      if r.status != Expired {
        end := ReconcileExportAck(j, a, target, driven);
        if !end.Proceed? { return; }
      }
      end := FinishRefresh(l, r, d.value, discovered, a, target, driven);
    }

    /** The rest of the iteration, once the export's acknowledgment is known. */
    method FinishRefresh(l: Locator, r: JobRecord, d: Disposition, discovered: bool, a: Answers, target: nat,
        driven: bool) returns (end: End)
      requires Valid() && r.finalized.Some?
      modifies this, state
      ensures Valid() && FlowOf(end, State()) ==
              AfterAck(config, world, old(State()), l, r, d, discovered, a, target, driven)
    {
      hide ActOn, NoteDeadline;
      var j := JobOf(l);
      var acked := r.status != Expired && j in acknowledged;
      end := AfterAnswer(a.terminal);
      if !end.Proceed? { return; }
      if acked { materialized := materialized + {l.request.intentId}; }
      end := Act(j, r, d, discovered, acked, a, target, driven);
      if !end.Proceed? { return; }
      end := NoteDeadlineReached(j, r.finalized.value.deadline, target);
    }

    /** `refresh_jobs`: over the requests tracked when it starts. */
    method RefreshJobs(answers: Hash -> Answers, target: nat, driven: bool) returns (end: End)
      requires Valid()
      modifies this, state
      ensures Valid() && FlowOf(end, State()) == Refresh(config, world, old(State()), answers, target, driven)
    {
      hide RefreshLoop;
      viewed := target;
      end := RefreshInOrder(SortedKeys(requests.Keys), answers, target, driven);
    }

    method RefreshInOrder(order: seq<Hash>, answers: Hash -> Answers, target: nat, driven: bool) returns (end: End)
      requires Valid()
      modifies this, state
      ensures Valid() && FlowOf(end, State()) ==
              RefreshLoop(config, world, old(State()), order, answers, target, driven)
    {
      hide RefreshOne, EmbeddedJobs.Valid;
      ghost var s := State();
      for n := 0 to |order|
        invariant Valid() && Go(State()) == RefreshLoop(config, world, s, order[..n], answers, target, driven)
      {
        assert order[..n + 1][..n] == order[..n];
        if order[n] in requests {
          end := RefreshRequest(order[n], answers(order[n]), target, driven);
          if end.Later? || end.Stopped? {
            RefreshStays(config, world, s, order, answers, target, driven, n + 1);
            return;
          }
        }
      }
      assert order[..|order|] == order;
      end := Proceed;
    }

    // ----- outcomes of workers -----

    /** `handle_compute` and `handle_vote`. */
    method Handle(o: Outcome, a: Answers) returns (end: End)
      requires Valid()
      modifies this, state
      ensures Valid() && FlowOf(end, State()) == HandleOutcome(old(State()), o, a)
    {
      hide Reduce, AcceptResult, ReducerOk;
      var j := o.job;
      var projection := ClassifyProjection(if j in jobs then Some(jobs[j].generation) else None,
                                           if j in state.jobs then Some(state.jobs[j].generation) else None);
      if projection.None? { fatal := true; return Stopped; }
      if projection.value.CheckpointPruned? { return Proceed; }
      match o
      case ComputeDone(_, generation, digest) =>
        if state.jobs[j].terminal == Some(ExpiredReason) { return Proceed; }
        if j !in disk.results {
          WriteOne(PutResult(j, digest));
        } else if disk.results[j] != digest {
          return Stopped;
        }
        end := AcceptLocalResult(j, generation, digest, a);
      case ComputeFailed(_, generation) =>
        var reduced := ReduceEvent(j, LocalFailed(generation));
        if reduced.Rejected? { return Stopped; }
        if reduced.action.FatalLocalFailure? { fatal := true; return Stopped; }
        return if reduced.action.Abstain? || reduced.action.ProtocolOwned? then Proceed else Stopped;
      case VoteDone(_, generation, success) =>
        VoteDoneKeeps(State(), j, generation, success);
        var reduced := ReduceEvent(j, VoteFinalized(generation, success));
        if reduced.Rejected? { return Stopped; }
        return if reduced.action.VoteSettled? || reduced.action.ProtocolOwned? then Proceed else Stopped;
      case VoteLost(_, generation) =>
        var reduced := ReduceEvent(j, VoteFailed(generation));
        if reduced.Rejected? { return Stopped; }
        if reduced.action.FatalVoteFailure? { fatal := true; return Stopped; }
        return if reduced.action.ProtocolOwned? then Proceed else Stopped;
    }

    /** The tick first drains the outcomes its workers sent. */
    method DrainOutcomes(outcomes: seq<Outcome>, a: Answers) returns (end: End)
      requires Valid()
      modifies this, state
      ensures Valid() && FlowOf(end, State()) == Drain(old(State()), outcomes, a)
    {
      hide HandleOutcome;
      ghost var s := State();
      end := Proceed;
      for n := 0 to |outcomes|
        invariant Valid() && end == Proceed && Go(State()) == Drain(s, outcomes[..n], a)
      {
        assert outcomes[..n + 1][..n] == outcomes[..n];
        HandleEnds(State(), outcomes[n], a);
        end := Handle(outcomes[n], a);
        if !end.Proceed? || fatal {
          end := Stopped;
          DrainStays(s, outcomes, a, n + 1);
          return;
        }
      }
      assert outcomes[..|outcomes|] == outcomes;
    }

    // ----- the closure checkpoint -----

    /** `request_is_closed`. */
    predicate IsClosedRequest(i: Hash)
      reads this, state
      ensures IsClosedRequest(i) == RequestClosed(State().books, i)
    {
      var known := i in intentJobs && intentJobs[i] in state.jobs;
      ProjectionClosed(
        i in materialized,
        if known then Some(state.jobs[intentJobs[i]].state) else None,
        if known then state.jobs[intentJobs[i]].terminal else None)
    }

    /** The scan for the open request of lowest block. */
    method LowestOpenRequest(order: seq<Hash>) returns (low: Option<Hash>)
      requires forall i :: i in order ==> i in requests
      ensures low == LowestOpen(State().books, order)
    {
      hide RequestClosed;
      low := None;
      for n := 0 to |order|
        invariant low == LowestOpen(State().books, order[..n])
      {
        assert order[..n + 1][..n] == order[..n];
        var i := order[n];
        assert i in order;
        if !IsClosedRequest(i) {
          if low.None? || requests[i].blockNumber < requests[low.value].blockNumber { low := Some(i); }
        }
      }
      assert order[..|order|] == order;
    }

    /** `prepare_closed_discovery_retirements`. */
    method PrepareClosedRetirements(order: seq<Hash>, closed: nat) returns (end: End)
      modifies this
      ensures FlowOf(end, State()) == PrepareAll(config, old(State()), order, closed)
    {
      hide RequestClosed, PlanPrepare;
      ghost var s := State();
      for n := 0 to |order|
        invariant Go(State()) == PrepareAll(config, s, order[..n], closed)
      {
        assert order[..n + 1][..n] == order[..n];
        var i := order[n];
        if i in requests && requests[i].blockNumber <= closed && IsClosedRequest(i) && i in intentJobs {
          end := PrepareOne(intentJobs[i], closed);
          if !end.Proceed? {
            PrepareStays(config, s, order, closed, n + 1);
            return;
          }
        }
      }
      assert order[..|order|] == order;
      end := Proceed;
    }

    method PrepareOne(j: JobId, closed: nat) returns (end: End)
      modifies this
      ensures FlowOf(end, State()) ==
                var b := old(State()).books;
                if j !in b.jobs then Halt(old(State()))
                else if b.jobs[j].spec.bundle !in config.bundles || b.jobs[j].source == 0 then Halt(old(State()))
                else OcompObserver.Perform(old(State()), PlanPrepare(old(State()).disk, OfferOf(b.jobs[j]), closed))
    {
      hide PlanPrepare;
      if j !in jobs { return Stopped; }
      if jobs[j].spec.bundle !in config.bundles || jobs[j].source == 0 { return Stopped; }
      end := Perform(PlanPrepare(disk, OfferOf(jobs[j]), closed));
    }

    /** `complete_discovery_retirements` over what the directories list. */
    method CompleteRetirements(listing: seq<Key>, closed: nat) returns (end: End)
      modifies this
      ensures FlowOf(end, State()) == CompleteAll(old(State()), listing, closed)
    {
      hide PlanComplete;
      ghost var s := State();
      for n := 0 to |listing|
        invariant Go(State()) == CompleteAll(s, listing[..n], closed)
      {
        assert listing[..n + 1][..n] == listing[..n];
        if listing[n] in disk.retirements {
          end := Perform(PlanComplete(disk, listing[n], closed));
          if !end.Proceed? {
            CompleteStays(s, listing, closed, n + 1);
            return;
          }
        }
      }
      assert listing[..|listing|] == listing;
      end := Proceed;
    }

    /** `prune_closed_requests_through`: collect first, then drop. */
    method PruneClosedRequests(order: seq<Hash>, closed: nat) returns (end: End)
      requires Valid()
      modifies this, state
      ensures Valid() && FlowOf(end, State()) ==
              PruneAll(old(State()), ClosingIntents(old(State()).books, order, closed))
    {
      hide RequestClosed, PruneAll;
      var closing: seq<Hash> := [];
      for n := 0 to |order|
        invariant State() == old(State()) && closing == ClosingIntents(State().books, order[..n], closed)
      {
        assert order[..n + 1][..n] == order[..n];
        if order[n] in requests && requests[order[n]].blockNumber <= closed && IsClosedRequest(order[n]) {
          closing := closing + [order[n]];
        }
      }
      assert order[..|order|] == order;
      end := DropRequests(closing);
    }

    method DropRequests(closing: seq<Hash>) returns (end: End)
      requires Valid()
      modifies this, state
      ensures Valid() && FlowOf(end, State()) == PruneAll(old(State()), closing)
    {
      ghost var s := State();
      for n := 0 to |closing|
        invariant Valid() && Go(State()) == PruneAll(s, closing[..n])
      {
        assert closing[..n + 1][..n] == closing[..n];
        var dropped := DropRequest(closing[n]);
        if !dropped {
          PruneStays(s, closing, n + 1);
          return Stopped;
        }
      }
      assert closing[..|closing|] == closing;
      end := Proceed;
    }

    method DropRequest(i: Hash) returns (ok: bool)
      requires Valid()
      modifies this, state
      ensures Valid()
      ensures var b := old(State()).books;
              ok == !(i in b.intentJobs && b.intentJobs[i] in b.reducer.jobs &&
                b.reducer.jobs[b.intentJobs[i]].terminal.None?)
      ensures State() == if ok then old(State()).(books := PruneOne(old(State()).books, i)) else old(State())
    {
      hide ReducerOk;
      if i !in intentJobs {
        ForgetRequest(i);
        return true;
      }
      ok := DropMapped(i, intentJobs[i]);
    }

    method DropMapped(i: Hash, j: JobId) returns (ok: bool)
      requires Valid() && i in intentJobs && intentJobs[i] == j
      modifies this, state
      ensures Valid() && ok == !(j in old(state.jobs) && old(state.jobs)[j].terminal.None?)
      ensures State() == if ok then old(State()).(books := PruneOne(old(State()).books, i)) else old(State())
    {
      hide ReducerOk;
      var error := state.PruneTerminalJob(j);
      if error.Some? { return false; }
      ForgetRequest(i);
      ForgetJob(i, j);
      return true;
    }

    method ForgetRequest(i: Hash)
      modifies this
      ensures var s := old(State());
              State() == s.(books := s.books.(requests := s.books.requests - {i},
                materialized := s.books.materialized - {i}))
    {
      requests, materialized := requests - {i}, materialized - {i};
    }

    method ForgetJob(i: Hash, j: JobId)
      modifies this
      ensures var s := old(State());
              State() == s.(books := s.books.(jobs := s.books.jobs - {j}, intentJobs := s.books.intentJobs - {i},
                                              pendingOffers := s.books.pendingOffers - {j},
                                                acknowledged := s.books.acknowledged - {j}))
    {
      jobs, intentJobs := jobs - {j}, intentJobs - {i};
      acknowledged, pendingOffers := acknowledged - {j}, pendingOffers - {j};
    }

    /** `flush_closure_checkpoint`, with the FinishedHeight the tick publishes for it. */
    method FlushClosureCheckpoint(first: seq<Key>, second: seq<Key>) returns (end: End)
      requires Valid()
      modifies this, state
      ensures Valid() && FlowOf(end, State()) == Flush(config, old(State()), first, second)
    {
      hide PrepareAll, CompleteAll, PruneAll, LowestOpen, ReducerOk, FinishFlush, ClosingIntents;
      var current := disk.closure;
      var order := SortedKeys(requests.Keys);
      var low := LowestOpenRequest(order);
      var target := if low.Some? then requests[low.value].beforeRequest else scanned;
      if target.number <= current.number {
        end := PrepareClosedRetirements(order, current.number);
        if !end.Proceed? { return; }
        end := CompleteRetirements(first, current.number);
        if !end.Proceed? { return; }
        end := PruneClosedRequests(SortedKeys(requests.Keys), current.number);
        return;
      }
      end := PrepareClosedRetirements(order, target.number);
      if !end.Proceed? { return; }
      end := CompleteRetirements(first, current.number);
      if !end.Proceed? { return; }
      end := AdvanceAndPublish(target, second);
    }

    method AdvanceAndPublish(target: Checkpoint, second: seq<Key>) returns (end: End)
      requires Valid()
      modifies this, state
      ensures Valid() && FlowOf(end, State()) == FinishFlush(old(State()), target, second)
    {
      hide CompleteAll, PruneAll, ReducerOk, ApplyAll, ClosingIntents, SortedKeys;
      if target.hash == 0 || disk.closure.hash == 0 || target.number <= disk.closure.number { return Stopped; }
      WriteOne(AdvanceClosure(target, viewed));
      end := CompleteRetirements(second, target.number);
      if !end.Proceed? { return; }
      end := PruneClosedRequests(SortedKeys(requests.Keys), target.number);
      if !end.Proceed? { return; }
      WriteOne(Publish(target));
    }

    // ----- the frame loop and the poll tick -----

    /** Projecting the next frame, which a replayed one already is. */
    method ProjectFrame(ok: bool) returns (end: End)
      modifies this
      ensures FlowOf(end, State()) == ProjectNext(old(State()), ok)
    {
      if !ok { return Stopped; }
      if disk.projected < scanned.number + 1 { WriteOne(Project(scanned.number + 1)); }
      return Proceed;
    }

    method TakeNextFrame(ok: bool) returns (end: End)
      modifies this
      ensures FlowOf(end, State()) == TakeFrame(world, old(State()), ok)
    {
      hide RecordRequest, ProjectNext, RecordScanned;
      end := RecordRequestObservation();
      if !end.Proceed? { return; }
      end := ProjectFrame(ok);
      if !end.Proceed? { return; }
      end := RecordScannedFrame();
    }

    method ScanOneFrame(a: FrameAnswers, target: nat) returns (end: End)
      requires Valid()
      modifies this, state
      ensures Valid() && FlowOf(end, State()) == ScanFrame(config, world, old(State()), a, target)
    {
      hide TakeFrame, Refresh, ReducerOk;
      end := AfterAnswer(ClassifyFrame(a.retention, config.retentionRequired));
      if !end.Proceed? { return; }
      end := TakeNextFrame(a.projectionOk);
      if !end.Proceed? { return; }
      end := RefreshJobs(a.jobs, target, false);
    }

    /** The frames of one tick, up to the target or the first retryable frame. */
    method ScanToTarget(frames: seq<FrameAnswers>, target: nat) returns (end: End)
      requires Valid()
      modifies this, state
      ensures Valid() && FlowOf(end, State()) == ScanFrames(config, world, old(State()), frames, target)
    {
      hide ScanFrame, ReducerOk;
      ghost var s := State();
      end := Proceed;
      for n := 0 to |frames|
        invariant Valid() && end == Proceed && Go(State()) == ScanFrames(config, world, s, frames[..n], target)
      {
        assert frames[..n + 1][..n] == frames[..n];
        if target <= scanned.number {
          ScanStays(config, world, s, frames, target, n);
          return;
        }
        end := ScanOneFrame(frames[n], target);
        if !end.Proceed? {
          ScanStays(config, world, s, frames, target, n + 1);
          return;
        }
      }
      assert frames[..|frames|] == frames;
    }

    method AnnounceClosure(target: nat) returns (end: End)
      modifies this
      ensures FlowOf(end, State()) == Announce(old(State()), target)
    {
      if announced { return Proceed; }
      if target < disk.closure.number { return Stopped; }
      WriteOne(Publish(disk.closure));
      announced := true;
      return Proceed;
    }

    method WorkTowards(t: TickAnswers, target: nat) returns (end: End)
      requires Valid()
      modifies this, state
      ensures Valid() && FlowOf(end, State()) == Work(config, world, old(State()), t, target)
    {
      hide ScanFrames, Refresh, Flush, ReducerOk;
      end := ScanToTarget(t.frames, target);
      if end.Stopped? { return; }
      if scanned.number != target {
        end := FlushClosureCheckpoint(t.first, t.second);
        return;
      }
      end := RefreshJobs(t.driven, target, true);
      if end.Later? { return Proceed; }
      if end.Stopped? { return; }
      recoveryTarget := None;
      end := FlushClosureCheckpoint(t.first, t.second);
    }

    /** The target is sampled once and kept until a recovery reaches it. */
    method PursueTarget(t: TickAnswers) returns (end: End)
      requires Valid() && t.head.Some? && disk.projected <= t.head.value
      modifies this, state
      ensures Valid()
      ensures var s := old(State());
              var target := if s.recoveryTarget.Some? then s.recoveryTarget.value else t.head.value;
              var f := Announce(s.(recoveryTarget := Some(target)), target);
              FlowOf(end, State()) == if f.Go? then Work(config, world, f.s, t, target) else f
    {
      hide Announce, Work, ReducerOk;
      if recoveryTarget.None? { recoveryTarget := t.head; }
      var target := recoveryTarget.value;
      end := AnnounceClosure(target);
      if end.Proceed? { end := WorkTowards(t, target); }
    }

    /** One poll tick. */
    method Tick(t: TickAnswers) returns (end: End)
      requires Valid()
      modifies this, state
      ensures Valid() && FlowOf(end, State()) == OcompObserver.Tick(config, world, old(State()), t)
    {
      hide Drain, Announce, Work, Flush, ReducerOk;
      base, wal := disk, [];
      end := DrainOutcomes(t.outcomes, t.outcomeAnswers);
      if !end.Proceed? { return; }
      if t.head.None? || t.head.value < disk.projected {
        end := FlushClosureCheckpoint(t.first, t.second);
      } else {
        end := PursueTarget(t);
      }
    }
  }

  /** A process that starts on a disk first completes the retirements its checkpoint authorises. */
  method Start(config: Config, world: World, disk: Disk, listing: seq<Key>) returns (end: End, o: Observer)
    ensures fresh(o) && fresh(o.state) && o.Valid() && o.config == config && o.world == world
    ensures FlowOf(end, o.State()) == Startup(config, disk, listing)
  {
    hide CompleteAll;
    o := new Observer(config, world, disk);
    end := o.CompleteRetirements(listing, disk.closure.number);
  }

  // ----- the observer from start to end -----

  /** The life of a process as a run: startup on what is on disk, then one poll after the other. */
  function TaskRun(listing: seq<Key>, ticks: seq<TickAnswers>): seq<OcompRuns.RunEvent> {
    [OcompRuns.Crash(0, listing)] + seq(|ticks|, k requires 0 <= k < |ticks| => OcompRuns.Poll(ticks[k]))
  }

  /** The observer ends in the state of its run, so what every run satisfies holds of it. */
  method RunTask(config: Config, world: World, disk: Disk, listing: seq<Key>, ticks: seq<TickAnswers>)
      returns (end: End, o: Observer)
    ensures fresh(o) && fresh(o.state) && o.Valid()
    ensures FlowOf(end, o.State()) == OcompRuns.After(config, world, disk, TaskRun(listing, ticks))
  {
    hide OcompObserver.Tick, Startup, ReducerOk;
    ghost var run := TaskRun(listing, ticks);
    assert run[..0] == [] && run[..1][..0] == [];
    end, o := Start(config, world, disk, listing);
    for n := 0 to |ticks|
      invariant fresh(o) && fresh(o.state) && o.Valid() && o.config == config && o.world == world
      invariant FlowOf(end, o.State()) == OcompRuns.After(config, world, disk, run[..n + 1])
    {
      assert run[..n + 2][..n + 1] == run[..n + 1];
      if end.Proceed? { end := o.Tick(ticks[n]); }
    }
    assert run[..|ticks| + 1] == run;
  }

  lemma {:induction false} ScanStays(c: Config, w: World, s: Sys, frames: seq<FrameAnswers>, target: nat, n: nat)
    requires n <= |frames|
    requires var f := ScanFrames(c, w, s, frames[..n], target); !f.Go? || target <= f.s.scanned.number
    ensures ScanFrames(c, w, s, frames, target) == ScanFrames(c, w, s, frames[..n], target)
    decreases |frames|
  {
    hide ScanFrame;
    if n == |frames| {
      assert frames[..n] == frames;
    } else {
      assert frames[..|frames| - 1][..n] == frames[..n];
      ScanStays(c, w, s, frames[..|frames| - 1], target, n);
    }
  }

  lemma {:induction false} PickStays(c: Config, s: Sys, spec: JobSpec, candidates: seq<Candidate>, n: nat)
    requires n <= |candidates| && !PickSource(c, s, spec, candidates[..n]).flow.Go?
    ensures PickSource(c, s, spec, candidates) == PickSource(c, s, spec, candidates[..n])
    decreases |candidates|
  {
    hide PlanPending, LookupPending, LookupAck;
    if n == |candidates| {
      assert candidates[..n] == candidates;
    } else {
      assert candidates[..|candidates| - 1][..n] == candidates[..n];
      PickStays(c, s, spec, candidates[..|candidates| - 1], n);
    }
  }

  /** Resolving the membership neither adds nor drops a job. */
  lemma EligibilityKeepsJobs(c: Config, w: World, s: Sys, j: JobId, a: Answers)
    requires RefreshEligibility(c, w, s, j, a).Go?
    ensures RefreshEligibility(c, w, s, j, a).s.books.jobs.Keys == s.books.jobs.Keys
  {
  }

  lemma {:induction false} RefreshStays(c: Config, w: World, s: Sys, order: seq<Hash>, answers: Hash -> Answers,
      target: nat, driven: bool, n: nat)
    requires n <= |order| && !RefreshLoop(c, w, s, order[..n], answers, target, driven).Go?
    ensures RefreshLoop(c, w, s, order, answers, target, driven) ==
            RefreshLoop(c, w, s, order[..n], answers, target, driven)
    decreases |order|
  {
    hide RefreshOne;
    if n == |order| {
      assert order[..n] == order;
    } else {
      assert order[..|order| - 1][..n] == order[..n];
      RefreshStays(c, w, s, order[..|order| - 1], answers, target, driven, n);
    }
  }

  /** A finalized vote never changes the job. */
  lemma VoteDoneKeeps(s: Sys, j: JobId, generation: nat, success: bool)
    ensures var reduced := Reduce(s, j, VoteFinalized(generation, success));
            reduced.Reduced? ==> SetReduced(s, j, reduced.job) == s
  {
    if Reduce(s, j, VoteFinalized(generation, success)).Reduced? {
      assert s.books.reducer.jobs[j := s.books.reducer.jobs[j]] == s.books.reducer.jobs;
    }
  }

  lemma HandleEnds(s: Sys, o: Outcome, a: Answers)
    ensures HandleOutcome(s, o, a).Go? || HandleOutcome(s, o, a).Halt?
  {
    hide Reduce, ApplyAll;
  }

  lemma {:induction false} DrainStays(s: Sys, outcomes: seq<Outcome>, a: Answers, n: nat)
    requires n <= |outcomes| && !Drain(s, outcomes[..n], a).Go?
    ensures Drain(s, outcomes, a) == Drain(s, outcomes[..n], a)
    decreases |outcomes|
  {
    hide HandleOutcome;
    if n == |outcomes| {
      assert outcomes[..n] == outcomes;
    } else {
      assert outcomes[..|outcomes| - 1][..n] == outcomes[..n];
      DrainStays(s, outcomes[..|outcomes| - 1], a, n);
    }
  }

  lemma {:induction false} PrepareStays(c: Config, s: Sys, order: seq<Hash>, closed: nat, n: nat)
    requires n <= |order| && !PrepareAll(c, s, order[..n], closed).Go?
    ensures PrepareAll(c, s, order, closed) == PrepareAll(c, s, order[..n], closed)
    decreases |order|
  {
    hide RequestClosed, PlanPrepare;
    if n == |order| {
      assert order[..n] == order;
    } else {
      assert order[..|order| - 1][..n] == order[..n];
      PrepareStays(c, s, order[..|order| - 1], closed, n);
    }
  }

  lemma {:induction false} CompleteStays(s: Sys, listing: seq<Key>, closed: nat, n: nat)
    requires n <= |listing| && !CompleteAll(s, listing[..n], closed).Go?
    ensures CompleteAll(s, listing, closed) == CompleteAll(s, listing[..n], closed)
    decreases |listing|
  {
    hide PlanComplete;
    if n == |listing| {
      assert listing[..n] == listing;
    } else {
      assert listing[..|listing| - 1][..n] == listing[..n];
      CompleteStays(s, listing[..|listing| - 1], closed, n);
    }
  }

  lemma {:induction false} PruneStays(s: Sys, closing: seq<Hash>, n: nat)
    requires n <= |closing| && !PruneAll(s, closing[..n]).Go?
    ensures PruneAll(s, closing) == PruneAll(s, closing[..n])
    decreases |closing|
  {
    hide PruneOne;
    if n == |closing| {
      assert closing[..n] == closing;
    } else {
      assert closing[..|closing| - 1][..n] == closing[..n];
      PruneStays(s, closing[..|closing| - 1], n);
    }
  }
}
