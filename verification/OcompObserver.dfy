/**
 The embedded OCOMP observer, `EmbeddedOcompExExV1`, as functions on its whole state: what
 one frame, one refresh, one worker outcome, one closure flush and one poll tick do. Every
 function returns how it ends, following the error paths of the original.
 */
module OcompObserver {
  import opened Basics
  import opened OcompTypes
  import opened OcompWorld
  import opened OcompReducer
  import opened OcompSpool

  // ----- the state -----

  datatype Eligibility = PendingVote | Eligible | NotMember

  /** `RuntimeJobV1`. `source` is the retention generation the job was discovered under. */
  datatype RuntimeJob = RuntimeJob(
    spec: JobSpec,
    source: nat,
    generation: nat,
    cancelled: bool,
    computeStarted: bool,
    eligibility: Eligibility,
    voteStarted: bool,
    canonical: Option<Hash>)

  /** The interlocking maps of the observer, with its reducer. */
  datatype Books = Books(
    requests: map<Hash, Locator>,
    materialized: set<Hash>,
    jobs: map<JobId, RuntimeJob>,
    intentJobs: map<Hash, JobId>,
    pendingOffers: map<JobId, OfferRef>,
    acknowledged: set<JobId>,
    reducer: Reducer)

  /**
   What the observer starts or relies on, with what it saw at that moment: the scan position
   and the sampled target; for a computation also the job's offer and the ACK that retention
   held for it; for a job adopted from a released retention what retention claimed of it and
   the ACK found in the spool.
   */
  datatype Effect =
    | Offered(job: JobId, scanned: nat, target: nat)
    | Computed(job: JobId, generation: nat, scanned: nat, target: nat, offer: OfferRef, held: Option<Ack>)
    | Voted(job: JobId)
    | Adopted(job: JobId, claim: OfferRef, status: Status, terms: Option<Export>, found: Option<Ack>)

  /**
   The running process and its disk. `base` is the disk at the start of the tick and `wal`
   the writes since, so every crash point of the tick is `ApplyAll(base, wal[..k])`.
   `viewed` is the target of the last refresh.
   */
  datatype Sys = Sys(
    base: Disk,
    wal: seq<Write>,
    disk: Disk,
    books: Books,
    scanned: Checkpoint,
    recoveryTarget: Option<nat>,
    announced: bool,
    viewed: nat,
    fatal: bool,
    effects: seq<Effect>)

  datatype Config = Config(policy: Policy, bundles: set<Hash>, retentionRequired: bool)

  /** How a step ends: go on, leave this request, retry the frame later, or stop the loop. */
  datatype Flow = Go(s: Sys) | Skip(s: Sys) | Retry(s: Sys) | Halt(s: Sys) {
    predicate IsFailure() { !Go? }
    function PropagateFailure(): Flow
      requires !Go?
    {
      this
    }
    function Extract(): Sys
      requires Go?
    {
      s
    }
  }

  // ----- answers of the surroundings -----

  /** A retention call: success, an outage that is retried, or a conflict. */
  datatype Reply = Accepted | Outage | Refusal

  datatype Candidate = Candidate(generation: nat, agrees: bool)

  datatype Export = Export(source: nat, lease: nat, manifest: Hash)

  datatype Released = NotReleased | ReleaseUnreadable(reply: Reply)
      | Released(source: nat, agrees: bool, authority: Option<Export>)

  datatype Discovery =
    | NotInstalled
    | Retained(candidates: seq<Candidate>)
    | Unbound(released: Released, bind: Reply, rebound: Reply, candidates: seq<Candidate>)
    | DiscoveryFailed(reply: Reply)

  datatype MembershipRead = SnapshotRead | SnapshotUnavailable | SnapshotCorrupt

  /** What the surroundings answer while one request is refreshed; `exporter` lists ACKs written just before. */
  datatype Answers = Answers(
    exporter: seq<Ack>,
    readOk: bool,
    discovery: Discovery,
    confirm: Reply,
    terminal: Reply,
    keyKnown: bool,
    membership: MembershipRead,
    quorumOk: bool,
    exactOk: bool,
    spawnOk: bool)

  // ----- durable writes -----

  function WriteAll(s: Sys, ws: seq<Write>): Sys {
    s.(disk := ApplyAll(s.disk, ws), wal := s.wal + ws)
  }

  function Perform(s: Sys, p: Plan): Flow {
    if p.ok then Go(WriteAll(s, p.writes)) else Halt(WriteAll(s, p.writes))
  }

  function ExporterAcks(s: Sys, acks: seq<Ack>): Sys {
    if acks == [] then s
    else
      var before := ExporterAcks(s, acks[..|acks| - 1]);
      WriteAll(before, PlanAck(before.disk, acks[|acks| - 1]).writes)
  }

  function AfterReply(s: Sys, reply: Reply): Flow {
    match reply
    case Accepted => Go(s)
    case Outage => Retry(s)
    case Refusal => Halt(s)
  }

  // ----- pure policies -----

  datatype Disposition =
    | WaitsForFinality
    | WaitsForOpen
    | IsVotingOpen
    | IsCompleted
    | IsClosed(reason: Reason, hasFinalized: bool)

  /** `classify_canonical_job`. */
  function ClassifyJob(status: Status, hasFinalized: bool): Option<Disposition> {
    match status
    case AwaitingFinality => Some(if hasFinalized then WaitsForOpen else WaitsForFinality)
    case VotingOpen => if hasFinalized then Some(IsVotingOpen) else None
    case Completed => if hasFinalized then Some(IsCompleted) else None
    case Expired => Some(IsClosed(ExpiredReason, hasFinalized))
    case Failed => Some(IsClosed(FailedReason, hasFinalized))
  }

  datatype Projection = Active | CheckpointPruned

  /** `classify_async_outcome_projection`; `None` is a disagreement. */
  function ClassifyProjection(runtime: Option<nat>, reducer: Option<nat>): Option<Projection> {
    match (runtime, reducer)
    case (Some(a), Some(b)) => if a == b then Some(Active) else None
    case (None, None) => Some(CheckpointPruned)
    case _ => None
  }

  datatype RestorePolicy = NeverRestore | BeforeCompute | AfterCanonicalCompleted

  /** `local_result_restore_policy`. */
  function RestoreWhen(d: Disposition, policy: Policy, discovered: bool, becameEligible: bool,
      computeStarted: bool): RestorePolicy {
    if d.IsVotingOpen? && (discovered || becameEligible || !computeStarted) then BeforeCompute
    else if d.IsCompleted? && policy == FullNode && (discovered || !computeStarted) then AfterCanonicalCompleted
    else NeverRestore
  }

  /** `advance_vote_eligibility`; `None` is a corrupt snapshot. */
  function AdvanceEligibility(current: Eligibility, read: MembershipRead, member: bool): Option<Eligibility> {
    if current != PendingVote then Some(current)
    else match read
      case SnapshotRead => Some(if member then Eligible else NotMember)
      case SnapshotUnavailable => Some(PendingVote)
      case SnapshotCorrupt => None
  }

  /** `request_projection_is_closed`. */
  predicate ProjectionClosed(materialized: bool, state: Option<JobState>, terminal: Option<Reason>) {
    terminal == Some(ExpiredReason) || (materialized && !(state.Some? && Live(state.value)))
  }

  /** `request_is_closed`. */
  predicate RequestClosed(b: Books, i: Hash) {
    var known := i in b.intentJobs && b.intentJobs[i] in b.reducer.jobs;
    ProjectionClosed(
      i in b.materialized,
      if known then Some(b.reducer.jobs[b.intentJobs[i]].state) else None,
      if known then b.reducer.jobs[b.intentJobs[i]].terminal else None)
  }

  // ----- scanning -----

  /** `record_request_observation` for block `scanned + 1`. */
  function RecordRequest(w: World, s: Sys): Flow {
    var h := s.scanned.number + 1;
    if w.frames(h).observation.None? then Go(s)
    else
      var l := LocatorAt(w, h);
      var i := l.request.intentId;
      var r := w.records(h, i);
      if r.intentHeight != h || r.request != l.request then Halt(s)
      else if i in s.books.requests then
        if s.books.requests[i] == l then Go(s) else Halt(s)
      else Go(s.(books := s.books.(requests := s.books.requests[i := l])))
  }

  /** `record_scanned_frame`. */
  function RecordScanned(w: World, s: Sys): Flow {
    var h := s.scanned.number + 1;
    if h > U64_MAX || w.frames(h).parent != s.scanned.hash then Halt(s)
    else Go(s.(scanned := Checkpoint(h, w.frames(h).hash)))
  }

  // ----- refreshing one request -----

  function UpdateJob(s: Sys, j: JobId, job: RuntimeJob): Sys {
    s.(books := s.books.(jobs := s.books.jobs[j := job]))
  }

  function SetReduced(s: Sys, j: JobId, job: Job): Sys {
    s.(books := s.books.(reducer := s.books.reducer.(jobs := s.books.reducer.jobs[j := job])))
  }

  function Reduce(s: Sys, j: JobId, event: Event): Reduced {
    if j in s.books.reducer.jobs then ReduceJob(s.books.reducer.mode, s.books.reducer.jobs[j], event)
    else Rejected(UnknownJob)
  }

  function Materialize(s: Sys, i: Hash): Sys {
    s.(books := s.books.(materialized := s.books.materialized + {i}))
  }

  function SpecFor(l: Locator, r: JobRecord): JobSpec
    requires r.finalized.Some?
  {
    JobSpec(l.blockNumber, JobOf(l), r.bundle, r.finalized.value.openHeight, r.finalized.value.deadline)
  }

  function OfferOf(job: RuntimeJob): OfferRef {
    OfferRef(job.source, job.spec)
  }

  /** Check the finalized job against its request block and map the intent to it. */
  function BindJob(s: Sys, l: Locator, r: JobRecord): Flow
    requires r.finalized.Some?
  {
    var f := r.finalized.value;
    var i := l.request.intentId;
    if f.blockHash != l.blockHash || f.stateRoot != l.stateRoot || f.jobId != JobOf(l) then Halt(s)
    else
      var bound := s.(books := s.books.(intentJobs := s.books.intentJobs[i := f.jobId]));
      if i in s.books.intentJobs && s.books.intentJobs[i] != f.jobId then Halt(bound) else Go(bound)
  }

  /** The source generation to discover a job under, picked from the retained candidates. */
  datatype Pick = Pick(flow: Flow, selected: Option<nat>, fallback: Option<nat>)

  /** One candidate, after earlier ones that went on. */
  function PickNext(c: Config, before: Pick, spec: JobSpec, last: Candidate): Pick
    requires before.flow.Go?
  {
    var probe := OfferRef(last.generation, spec);
    var k := KeyOf(probe);
    var s0 := before.flow.s;
    if !last.agrees || spec.bundle !in c.bundles || last.generation == 0 then before.(flow := Halt(s0))
    else
      var pending := LookupPending(s0.disk, k);
      var after := Perform(s0, PlanPending(s0.disk, k));
      if !after.Go? then before.(flow := after)
      else
        var ack := LookupAck(after.s.disk, k);
        if ack.Unreadable? then before.(flow := Halt(after.s))
        else
          var authority := if pending.Found? then Some(pending.value)
                           else if ack.Found? then Some(ack.value.ref) else None;
          if authority == Some(probe) then
            if before.selected.Some? then Pick(Halt(after.s), before.selected, before.fallback)
            else Pick(after, Some(last.generation), before.fallback)
          else Pick(after, before.selected, if before.fallback.None? then Some(last.generation) else before.fallback)
  }

  function PickSource(c: Config, s: Sys, spec: JobSpec, candidates: seq<Candidate>): Pick {
    if candidates == [] then Pick(Go(s), None, None)
    else
      var before := PickSource(c, s, spec, candidates[..|candidates| - 1]);
      if !before.flow.Go? then before else PickNext(c, before, spec, candidates[|candidates| - 1])
  }

  /** Start tracking a discovered job in the reducer and the runtime map together. */
  function TrackJob(c: Config, s: Sys, spec: JobSpec, source: nat): Flow {
    match Observe(s.books.reducer, spec.jobId, spec.deadline)
    case Refused(_) => Halt(s)
    case Observed(reducer, generation) =>
      var job := RuntimeJob(spec, source, generation, false, false,
                            if c.policy == Validator then PendingVote else NotMember, false, None);
      Go(s.(books := s.books.(reducer := reducer, jobs := s.books.jobs[spec.jobId := job])))
  }

  function InstallJob(c: Config, s: Sys, spec: JobSpec, candidates: seq<Candidate>): Flow {
    var pick := PickSource(c, s, spec, candidates);
    if !pick.flow.Go? then pick.flow
    else if pick.selected.Some? then TrackJob(c, pick.flow.s, spec, pick.selected.value)
    else if pick.fallback.Some? then TrackJob(c, pick.flow.s, spec, pick.fallback.value)
    else Halt(pick.flow.s)
  }

  /** `confirm_canonical_export_ack`: retention keeps the first ACK of a job and takes only that one again. */
  function Confirm(s: Sys, j: JobId, ack: Ack, reply: Reply): Flow {
    if j in s.disk.retained && s.disk.retained[j] != ack then
      AfterReply(s, if reply == Accepted then Refusal else reply)
    else
      var s1 :- AfterReply(s, reply);
      Go(WriteAll(s1, [RetainAck(j, ack)]))
  }

  /** What retention holds for a job. */
  function RetainedFor(d: Disk, j: JobId): Option<Ack> {
    if j in d.retained then Some(d.retained[j]) else None
  }

  /** The ACK the spool holds under a key. */
  function SpoolAck(d: Disk, k: Key): Option<Ack> {
    if k in d.acks then Some(d.acks[k]) else None
  }

  /** A released job is adopted on what retention claims and the spool holds. */
  function Adopt(s: Sys, claim: OfferRef, status: Status, terms: Option<Export>): Sys {
    s.(effects := s.effects + [Adopted(claim.spec.jobId, claim, status, terms, SpoolAck(s.disk, KeyOf(claim)))])
  }

  /** `verify_released_export_ack`. */
  function VerifyReleased(c: Config, s: Sys, spec: JobSpec, status: Status, released: Released, confirm: Reply): Flow
    requires released.Released?
  {
    var probe := OfferRef(released.source, spec);
    if !released.agrees || released.source == 0 then Halt(s)
    else
      var ack := LookupAck(s.disk, KeyOf(probe));
      if released.authority.None? && status != Expired then
        if spec.bundle !in c.bundles || !ack.Found? || ack.value.ref != probe then Halt(s)
        else
          var s1 :- Confirm(s, spec.jobId, ack.value, confirm);
          Go(Adopt(s1, probe, status, None))
      else if released.authority.None? then Go(Adopt(s, probe, status, None))
      else
        var authority := released.authority.value;
        var exported := OfferRef(authority.source, spec);
        var recorded := LookupAck(s.disk, KeyOf(exported));
        if spec.bundle !in c.bundles || authority.source == 0 || !recorded.Found? then Halt(s)
        else if recorded.value != Ack(exported, authority.lease, authority.manifest) then Halt(s)
        else Go(Adopt(s, exported, status, Some(authority)))
  }

  function Discover(c: Config, s: Sys, spec: JobSpec, status: Status, d: Disposition, a: Answers): Flow {
    match a.discovery
    case NotInstalled => Skip(s)
    case DiscoveryFailed(reply) => AfterReply(s, if reply == Accepted then Refusal else reply)
    case Retained(candidates) => InstallJob(c, s, spec, candidates)
    case Unbound(_, _, _, _) => DiscoverUnbound(c, s, spec, status, d, a)
  }

  /** Discovery of a job no retained source is bound to: released already, or bound now. */
  function DiscoverUnbound(c: Config, s: Sys, spec: JobSpec, status: Status, d: Disposition, a: Answers): Flow
    requires a.discovery.Unbound?
  {
    match a.discovery.released
    case ReleaseUnreadable(reply) => AfterReply(s, if reply == Accepted then Refusal else reply)
    case Released(source, _, _) =>
      if !d.IsClosed? && !d.IsCompleted? then Halt(s)
      else
        var s1 :- VerifyReleased(c, s, spec, status, a.discovery.released, a.confirm);
        InstallJob(c, s1, spec, [Candidate(source, true)])
    case NotReleased =>
      var s1 :- AfterReply(s, a.discovery.bind);
      var s2 :- AfterReply(s1, a.discovery.rebound);
      InstallJob(c, s2, spec, a.discovery.candidates)
  }

  /** The offer whose ACK is awaited; a driven refresh persists it. */
  function EnsureOffer(s: Sys, j: JobId, target: nat, driven: bool): Flow
    requires j in s.books.jobs
  {
    var ref := OfferOf(s.books.jobs[j]);
    if j in s.books.pendingOffers || !driven then Go(s)
    else
      var s1 :- Perform(s, PlanOffer(s.disk, ref));
      Go(s1.(books := s1.books.(pendingOffers := s1.books.pendingOffers[j := ref]),
             effects := s1.effects + [Offered(j, s1.scanned.number, target)]))
  }

  /** `reconcile_export_ack`; the job is acknowledged afterwards iff it is in `acknowledged`. */
  function ReconcileAck(c: Config, s: Sys, j: JobId, a: Answers, target: nat, driven: bool): Flow {
    if j in s.books.acknowledged then Go(s)
    else if j !in s.books.jobs then Halt(s)
    else if s.books.jobs[j].spec.bundle !in c.bundles || s.books.jobs[j].source == 0 then Halt(s)
    else
      var s1 :- EnsureOffer(s, j, target, driven);
      var offer := if j in s1.books.pendingOffers then s1.books.pendingOffers[j] else OfferOf(s.books.jobs[j]);
      match LookupAck(s1.disk, KeyOf(offer))
      case Unreadable => Halt(s1)
      case Absent => Go(s1)
      case Found(ack) =>
        if ack.ref != offer then Halt(s1)
        else
          var s2 :- Confirm(s1, j, ack, a.confirm);
          Go(s2.(books := s2.books.(acknowledged := s2.books.acknowledged + {j},
                                    pendingOffers := s2.books.pendingOffers - {j})))
  }

  // ----- local results, votes, computations -----

  /** The local result may be voted on: what happens depends on the pinned membership. */
  function StartVote(s: Sys, j: JobId, a: Answers): Flow {
    if j !in s.books.jobs then Halt(s)
    else
      var job := s.books.jobs[j];
      match job.eligibility
      case PendingVote => Go(s)
      case NotMember => Go(UpdateJob(s, j, job.(voteStarted := true)))
      case Eligible =>
        if job.voteStarted then Go(s)
        else if !a.spawnOk then Halt(s)
        else Go(UpdateJob(s, j, job.(voteStarted := true)).(effects := s.effects + [Voted(j)]))
  }

  /** `accept_local_result`. */
  function AcceptResult(s: Sys, j: JobId, generation: nat, digest: Hash, a: Answers): Flow {
    match Reduce(s, j, LocalCompleted(generation, digest))
    case Rejected(_) => Halt(s)
    case Reduced(job, action) =>
      var s1 := SetReduced(s, j, job);
      match action
      case SubmitVote(_) => StartVote(s1, j, a)
      case ReleaseProgress =>
        if j !in s1.books.jobs || s1.books.jobs[j].canonical.None? || !a.exactOk then Halt(s1) else Go(s1)
      case FatalMismatch(_, _) => Go(s1.(fatal := true))
      case AwaitCanonical => Go(s1)
      case ProtocolOwned => Go(s1)
      case _ => Halt(s1)
  }

  /** `restore_local_result`. */
  function RestoreResult(s: Sys, j: JobId, a: Answers): Flow {
    if j !in s.disk.results then Go(s)
    else if j !in s.books.jobs then Halt(s)
    else
      var s1 := UpdateJob(s, j, s.books.jobs[j].(computeStarted := true));
      AcceptResult(s1, j, s1.books.jobs[j].generation, s.disk.results[j], a)
  }

  /** `ensure_compute_started`. */
  function EnsureCompute(s: Sys, j: JobId, a: Answers, target: nat): Flow {
    if j !in s.books.jobs then Halt(s)
    else if s.books.jobs[j].computeStarted then Go(s)
    else if !a.spawnOk then Halt(s)
    else
      var job := s.books.jobs[j];
      Go(UpdateJob(s, j, job.(computeStarted := true))
         .(effects := s.effects +
           [Computed(j, job.generation, s.scanned.number, target, OfferOf(job), RetainedFor(s.disk, j))]))
  }

  /** `refresh_vote_eligibility`. */
  function RefreshEligibility(c: Config, w: World, s: Sys, j: JobId, a: Answers): Flow {
    if c.policy != Validator then Go(s)
    else if j !in s.books.jobs then Halt(s)
    else if s.books.jobs[j].eligibility != PendingVote then Go(s)
    else if !a.keyKnown then Halt(s)
    else
      match AdvanceEligibility(PendingVote, a.membership, w.member(j.intent))
      case None => Halt(s)
      case Some(resolved) => Go(UpdateJob(s, j, s.books.jobs[j].(eligibility := resolved)))
  }

  /** `observe_completed`. */
  function ObserveCompleted(c: Config, s: Sys, j: JobId, r: JobRecord, a: Answers, target: nat): Flow {
    if j in s.books.jobs && s.books.jobs[j].canonical.Some? then Go(s)
    else if r.completion.None? || r.completion.value.quorumHeight > target || !a.quorumOk || j !in s.books.jobs then
      Halt(s)
    else
      var digest := r.completion.value.digest;
      var s1 := UpdateJob(s, j, s.books.jobs[j].(canonical := Some(digest)));
      match Reduce(s1, j, CanonicalCompleted(digest))
      case Rejected(_) => Halt(s1)
      case Reduced(job, action) =>
        var s2 := SetReduced(s1, j, job);
        if action.ReleaseProgress? && c.policy == FullNode && !a.exactOk then Halt(s2)
        else if action.FatalMismatch? then Go(s2.(fatal := true))
        else Go(s2)
  }

  /** `observe_terminal`. */
  function ObserveTerminal(s: Sys, j: JobId, reason: Reason): Flow {
    match Reduce(s, j, CanonicalClosed(reason))
    case Rejected(_) => Halt(s)
    case Reduced(job, _) =>
      var s1 := SetReduced(s, j, job);
      Go(if j in s1.books.jobs then UpdateJob(s1, j, s1.books.jobs[j].(cancelled := true)) else s1)
  }

  /** The part of a refresh that depends on the canonical disposition. */
  function ActOn(c: Config, w: World, s: Sys, j: JobId, r: JobRecord, d: Disposition, discovered: bool,
                 acked: bool, a: Answers, target: nat, driven: bool): Flow
  {
    match d
    case IsVotingOpen =>
      if !acked || !driven then Skip(s)
      else
        var s1 :- RefreshEligibility(c, w, s, j, a);
        if j !in s.books.jobs || j !in s1.books.jobs then Halt(s1)
        else
          var became := s.books.jobs[j].eligibility == PendingVote && s1.books.jobs[j].eligibility == Eligible;
          var restore := RestoreWhen(d, c.policy, discovered, became, s1.books.jobs[j].computeStarted);
          var s2 :- if restore == BeforeCompute then RestoreResult(s1, j, a) else Go(s1);
          EnsureCompute(s2, j, a, target)
    case IsCompleted =>
      if !acked then Skip(s)
      else
        var s1 :- ObserveCompleted(c, s, j, r, a, target);
        if c.policy != FullNode then Go(s1)
        else if j !in s1.books.jobs then Halt(s1)
        else
          var restore := RestoreWhen(d, c.policy, discovered, false, s1.books.jobs[j].computeStarted);
          var s2 :- if restore == AfterCanonicalCompleted then RestoreResult(s1, j, a) else Go(s1);
          EnsureCompute(s2, j, a, target)
    case IsClosed(reason, _) => ObserveTerminal(s, j, reason)
    case WaitsForOpen => Go(s)
    case WaitsForFinality => Halt(s)
  }

  function NoteDeadline(s: Sys, j: JobId, deadline: nat, target: nat): Flow {
    if target < deadline || j !in s.books.reducer.jobs || !Live(s.books.reducer.jobs[j].state) then Go(s)
    else match Reduce(s, j, DeadlineReached)
      case Rejected(_) => Halt(s)
      case Reduced(job, _) => Go(SetReduced(s, j, job))
  }

  /** The second half of a refresh, from the acknowledged or unacknowledged job on. */
  function AfterAck(c: Config, w: World, s: Sys, l: Locator, r: JobRecord, d: Disposition, discovered: bool,
      a: Answers, target: nat, driven: bool): Flow
    requires r.finalized.Some?
  {
    var j := JobOf(l);
    var acked := r.status != Expired && j in s.books.acknowledged;
    var s4 :- AfterReply(s, a.terminal);
    var s5 := if acked then Materialize(s4, l.request.intentId) else s4;
    var s6 :- ActOn(c, w, s5, j, r, d, discovered, acked, a, target, driven);
    NoteDeadline(s6, j, r.finalized.value.deadline, target)
  }

  /** One iteration of `refresh_jobs`. */
  function RefreshOne(c: Config, w: World, s: Sys, i: Hash, a: Answers, target: nat, driven: bool): Flow
    requires i in s.books.requests
  {
    var s0 := ExporterAcks(s, a.exporter);
    var l := s.books.requests[i];
    var r := w.records(target, i);
    var d := ClassifyJob(r.status, r.finalized.Some?);
    if !a.readOk || d.None? then Halt(s0)
    else if d.value.WaitsForFinality? then Skip(s0)
    else if d.value.IsClosed? && !d.value.hasFinalized then Skip(Materialize(s0, i))
    else
      var j := JobOf(l);
      var s1 :- BindJob(s0, l, r);
      var discovered := j !in s1.books.jobs;
      var s2 :- if discovered then Discover(c, s1, SpecFor(l, r), r.status, d.value, a) else Go(s1);
      var s3 :- if r.status == Expired then Go(s2) else ReconcileAck(c, s2, j, a, target, driven);
      AfterAck(c, w, s3, l, r, d.value, discovered, a, target, driven)
  }

  /** The loop of `refresh_jobs` over the requests in `order`. */
  function RefreshLoop(c: Config, w: World, s: Sys, order: seq<Hash>, answers: Hash -> Answers, target: nat,
      driven: bool): Flow
  {
    if order == [] then Go(s)
    else
      var before :- RefreshLoop(c, w, s, order[..|order| - 1], answers, target, driven);
      var i := order[|order| - 1];
      if i !in before.books.requests then Go(before)
      else
        var after := RefreshOne(c, w, before, i, answers(i), target, driven);
        if after.Skip? then Go(after.s) else after
  }

  /** `refresh_jobs`. */
  function Refresh(c: Config, w: World, s: Sys, answers: Hash -> Answers, target: nat, driven: bool): Flow {
    RefreshLoop(c, w, s.(viewed := target), SortedKeys(s.books.requests.Keys), answers, target, driven)
  }

  // ----- outcomes of workers -----

  datatype Outcome =
    | ComputeDone(job: JobId, generation: nat, digest: Hash)
    | ComputeFailed(job: JobId, generation: nat)
    | VoteDone(job: JobId, generation: nat, success: bool)
    | VoteLost(job: JobId, generation: nat)

  function ProjectionOf(b: Books, j: JobId): Option<Projection> {
    ClassifyProjection(
      if j in b.jobs then Some(b.jobs[j].generation) else None,
      if j in b.reducer.jobs then Some(b.reducer.jobs[j].generation) else None)
  }

  /** `commit_local_result`: write once, conflict on a different digest. */
  function CommitResult(s: Sys, j: JobId, digest: Hash): Flow {
    if j !in s.disk.results then Go(WriteAll(s, [PutResult(j, digest)]))
    else if s.disk.results[j] == digest then Go(s)
    else Halt(s)
  }

  /** `handle_compute` and `handle_vote`. */
  function HandleOutcome(s: Sys, o: Outcome, a: Answers): Flow {
    var projection := ProjectionOf(s.books, o.job);
    if projection.None? then Halt(s.(fatal := true))
    else if projection.value.CheckpointPruned? then Go(s)
    else
      match o
      case ComputeDone(j, generation, digest) =>
        if s.books.reducer.jobs[j].terminal == Some(ExpiredReason) then Go(s)
        else
          var s1 :- CommitResult(s, j, digest);
          AcceptResult(s1, j, generation, digest, a)
      case ComputeFailed(j, generation) =>
        (match Reduce(s, j, LocalFailed(generation))
         case Rejected(_) => Halt(s)
         case Reduced(job, action) =>
           var s1 := SetReduced(s, j, job);
           if action.FatalLocalFailure? then Halt(s1.(fatal := true))
           else if action.Abstain? || action.ProtocolOwned? then Go(s1) else Halt(s1))
      case VoteDone(j, generation, success) =>
        (match Reduce(s, j, VoteFinalized(generation, success))
         case Rejected(_) => Halt(s)
         case Reduced(job, action) =>
           if action.VoteSettled? || action.ProtocolOwned? then Go(SetReduced(s, j, job)) else Halt(s))
      case VoteLost(j, generation) =>
        (match Reduce(s, j, VoteFailed(generation))
         case Rejected(_) => Halt(s)
         case Reduced(job, action) =>
           var s1 := SetReduced(s, j, job);
           if action.FatalVoteFailure? then Halt(s1.(fatal := true))
           else if action.ProtocolOwned? then Go(s1) else Halt(s1))
  }

  // ----- the closure checkpoint -----

  /** Scan of `flush_closure_checkpoint` for the open request of lowest block, in map order. */
  function LowestOpen(b: Books, order: seq<Hash>): (low: Option<Hash>)
    requires forall i :: i in order ==> i in b.requests
    ensures low.Some? ==> low.value in order && !RequestClosed(b, low.value)
    ensures forall o :: o in order && !RequestClosed(b, o) ==>
              low.Some? && b.requests[low.value].blockNumber <= b.requests[o].blockNumber
  {
    if order == [] then None
    else
      var last := order[|order| - 1];
      var before := LowestOpen(b, order[..|order| - 1]);
      if RequestClosed(b, last) then before
      else if before.Some? && b.requests[before.value].blockNumber <= b.requests[last].blockNumber then before
      else Some(last)
  }

  /** The checkpoint the flush may advance to. */
  function FlushTarget(s: Sys): Checkpoint {
    var low := LowestOpen(s.books, SortedKeys(s.books.requests.Keys));
    if low.Some? then s.books.requests[low.value].beforeRequest else s.scanned
  }

  /** `prepare_closed_discovery_retirements`. */
  function PrepareAll(c: Config, s: Sys, order: seq<Hash>, closed: nat): Flow {
    if order == [] then Go(s)
    else
      var before :- PrepareAll(c, s, order[..|order| - 1], closed);
      var i := order[|order| - 1];
      var b := before.books;
      if i !in b.requests || closed < b.requests[i].blockNumber || !RequestClosed(b, i) || i !in b.intentJobs then
        Go(before)
      else if b.intentJobs[i] !in b.jobs then Halt(before)
      else
        var job := b.jobs[b.intentJobs[i]];
        if job.spec.bundle !in c.bundles || job.source == 0 then Halt(before)
        else Perform(before, PlanPrepare(before.disk, OfferOf(job), closed))
  }

  /** `complete_discovery_retirements` over a directory listing; an entry that is gone is passed over. */
  function CompleteAll(s: Sys, listing: seq<Key>, closed: nat): Flow {
    if listing == [] then Go(s)
    else
      var before :- CompleteAll(s, listing[..|listing| - 1], closed);
      var k := listing[|listing| - 1];
      if k !in before.disk.retirements then Go(before)
      else Perform(before, PlanComplete(before.disk, k, closed))
  }

  /** Drop one closed request from every map. */
  function PruneOne(b: Books, i: Hash): Books {
    var kept := b.(requests := b.requests - {i}, materialized := b.materialized - {i});
    if i !in b.intentJobs then kept
    else
      var j := b.intentJobs[i];
      kept.(intentJobs := b.intentJobs - {i}, jobs := b.jobs - {j}, acknowledged := b.acknowledged - {j},
            pendingOffers := b.pendingOffers - {j}, reducer := b.reducer.(jobs := b.reducer.jobs - {j}))
  }

  /** `prune_closed_requests_through`: the intents to drop are collected before the first is dropped. */
  function PruneAll(s: Sys, closing: seq<Hash>): Flow {
    if closing == [] then Go(s)
    else
      var before :- PruneAll(s, closing[..|closing| - 1]);
      var i := closing[|closing| - 1];
      var b := before.books;
      if i in b.intentJobs && b.intentJobs[i] in b.reducer.jobs && b.reducer.jobs[b.intentJobs[i]].terminal.None? then
        Halt(before)
      else Go(before.(books := PruneOne(b, i)))
  }

  function ClosingIntents(b: Books, order: seq<Hash>, closed: nat): seq<Hash> {
    if order == [] then []
    else
      var i := order[|order| - 1];
      ClosingIntents(b, order[..|order| - 1], closed)
      + if i in b.requests && b.requests[i].blockNumber <= closed && RequestClosed(b, i) then [i] else []
  }

  function PruneThrough(s: Sys, closed: nat): Flow {
    PruneAll(s, ClosingIntents(s.books, SortedKeys(s.books.requests.Keys), closed))
  }

  /** `compare_and_advance_to` from the checkpoint just read. */
  function AdvanceTo(s: Sys, target: Checkpoint): Flow {
    if target.hash == 0 || s.disk.closure.hash == 0 || target.number <= s.disk.closure.number then Halt(s)
    else Go(WriteAll(s, [AdvanceClosure(target, s.viewed)]))
  }

  /** `flush_closure_checkpoint`, then the FinishedHeight it makes the tick publish. */
  function Flush(c: Config, s: Sys, first: seq<Key>, second: seq<Key>): Flow {
    var current := s.disk.closure;
    var target := FlushTarget(s);
    var order := SortedKeys(s.books.requests.Keys);
    if target.number <= current.number then
      var s1 :- PrepareAll(c, s, order, current.number);
      var s2 :- CompleteAll(s1, first, current.number);
      PruneThrough(s2, current.number)
    else
      var s1 :- PrepareAll(c, s, order, target.number);
      var s2 :- CompleteAll(s1, first, current.number);
      FinishFlush(s2, target, second)
  }

  /** Everything behind the checkpoint is prepared: advance it, finish the removals, forget, publish. */
  function FinishFlush(s: Sys, target: Checkpoint, second: seq<Key>): Flow {
    var s1 :- AdvanceTo(s, target);
    var s2 :- CompleteAll(s1, second, target.number);
    var s3 :- PruneThrough(s2, target.number);
    Go(WriteAll(s3, [Publish(target)]))
  }

  // ----- the poll tick -----

  datatype FrameReply = FrameKept | CoordinatorMissing | JournalOutage | IdentityConflict

  /** `classify_retention_reconciliation`. */
  function ClassifyFrame(reply: FrameReply, required: bool): Reply {
    match reply
    case FrameKept => Accepted
    case CoordinatorMissing => if required then Outage else Accepted
    case JournalOutage => Outage
    case IdentityConflict => Refusal
  }

  datatype FrameAnswers = FrameAnswers(retention: FrameReply, projectionOk: bool, jobs: Hash -> Answers)

  datatype TickAnswers = TickAnswers(
    outcomes: seq<Outcome>,
    head: Option<nat>,
    frames: seq<FrameAnswers>,
    driven: Hash -> Answers,
    outcomeAnswers: Answers,
    first: seq<Key>,
    second: seq<Key>)

  function Drain(s: Sys, outcomes: seq<Outcome>, a: Answers): Flow {
    if outcomes == [] then Go(s)
    else
      var before :- Drain(s, outcomes[..|outcomes| - 1], a);
      var after :- HandleOutcome(before, outcomes[|outcomes| - 1], a);
      if after.fatal then Halt(after) else Go(after)
  }

  /** Block `scanned + 1` becomes durable in the projection before it counts as scanned. */
  function ProjectNext(s: Sys, ok: bool): Flow {
    var h := s.scanned.number + 1;
    if !ok then Halt(s)
    else if s.disk.projected < h then Go(WriteAll(s, [Project(h)]))
    else Go(s)
  }

  /** Recording, projecting and counting the next frame, up to its refresh. */
  function TakeFrame(w: World, s: Sys, projectionOk: bool): Flow {
    var s1 :- RecordRequest(w, s);
    var s2 :- ProjectNext(s1, projectionOk);
    RecordScanned(w, s2)
  }

  /** One frame of the batch, up to and including its undriven refresh. */
  function ScanFrame(c: Config, w: World, s: Sys, a: FrameAnswers, target: nat): Flow {
    var s1 :- AfterReply(s, ClassifyFrame(a.retention, c.retentionRequired));
    var s2 :- TakeFrame(w, s1, a.projectionOk);
    Refresh(c, w, s2, a.jobs, target, false)
  }

  /** The frame loop: it stops at the target, and a retryable frame ends it for this tick. */
  function ScanFrames(c: Config, w: World, s: Sys, frames: seq<FrameAnswers>, target: nat): Flow
  {
    if frames == [] then Go(s)
    else
      var before := ScanFrames(c, w, s, frames[..|frames| - 1], target);
      if !before.Go? || target <= before.s.scanned.number then before
      else ScanFrame(c, w, before.s, frames[|frames| - 1], target)
  }

  /** The finalized target this tick works towards, if any. */
  function SampleTarget(s: Sys, head: Option<nat>): Option<nat> {
    if head.None? || head.value < s.disk.projected then None
    else if s.recoveryTarget.Some? then s.recoveryTarget
    else head
  }

  /** The first FinishedHeight of a process repeats its durable closure checkpoint. */
  function Announce(s: Sys, target: nat): Flow {
    if s.announced then Go(s)
    else if target < s.disk.closure.number then Halt(s)
    else Go(WriteAll(s, [Publish(s.disk.closure)]).(announced := true))
  }

  /** The part of the tick that works towards a sampled target. */
  function Work(c: Config, w: World, s: Sys, t: TickAnswers, target: nat): Flow {
    var scanned := ScanFrames(c, w, s, t.frames, target);
    if scanned.Halt? then scanned
    else if scanned.s.scanned.number != target then Flush(c, scanned.s, t.first, t.second)
    else
      var refreshed := Refresh(c, w, scanned.s, t.driven, target, true);
      if refreshed.Retry? then Go(refreshed.s)
      else if refreshed.Halt? then refreshed
      else Flush(c, refreshed.s.(recoveryTarget := None), t.first, t.second)
  }

  /** One poll tick. */
  function Tick(c: Config, w: World, s: Sys, t: TickAnswers): Flow {
    var s1 :- Drain(s.(base := s.disk, wal := []), t.outcomes, t.outcomeAnswers);
    var sampled := SampleTarget(s1, t.head);
    if sampled.None? then Flush(c, s1, t.first, t.second)
    else
      var s2 :- Announce(s1.(recoveryTarget := sampled), sampled.value);
      Work(c, w, s2, t, sampled.value)
  }

  /** The process that starts on `disk`: empty maps, the scan resumes at the closure checkpoint. */
  function Restart(c: Config, disk: Disk): Sys {
    Sys(disk, [], disk, Books(map[], {}, map[], map[], map[], {}, NewReducer(c.policy)),
        disk.closure, None, false, 0, false, [])
  }

  /** Startup first completes the retirements its checkpoint authorises. */
  function Startup(c: Config, disk: Disk, listing: seq<Key>): Flow {
    CompleteAll(Restart(c, disk), listing, disk.closure.number)
  }
}
