/**
 Whole runs of the observer: poll ticks, and crashes at any durable write followed by a
 restart on what is on disk. The main theorems are stated over every run.
 */
module OcompRuns {
  import opened Basics
  import opened OcompTypes
  import opened OcompWorld
  import opened OcompReducer
  import opened OcompSpool
  import opened OcompObserver
  import opened OcompInvariant
  import opened OcompRefresh
  import opened OcompClosure
  import opened OcompTick
  import opened OcompWork

  // ----- runs -----

  /** A poll tick, or a crash after `after` writes of the last operation with a restart on what is durable. */
  datatype RunEvent = Poll(answers: TickAnswers) | Crash(after: nat, listing: seq<Key>)

  /** What is durable when the last operation is cut off after `after` writes. */
  function Durable(s: Sys, after: nat): Disk {
    ApplyAll(s.base, if after <= |s.wal| then s.wal[..after] else s.wal)
  }

  function Step(c: Config, w: World, before: Flow, event: RunEvent): Flow {
    match event
    case Poll(answers) => if before.Go? then Tick(c, w, before.s, answers) else before
    case Crash(after, listing) => Startup(c, Durable(before.s, after), listing)
  }

  /** The process and its disk after a whole run; a stopped loop stays stopped until a restart. */
  function After(c: Config, w: World, disk: Disk, events: seq<RunEvent>): Flow {
    if events == [] then Go(Restart(c, disk))
    else Step(c, w, After(c, w, disk, events[..|events| - 1]), events[|events| - 1])
  }

  /** The surroundings deliver only outcomes of work the running process started. */
  ghost predicate Plausible(c: Config, w: World, disk: Disk, events: seq<RunEvent>) {
    forall k :: 0 <= k < |events| && events[k].Poll? ==> Delivered(After(c, w, disk, events[..k]), events[k].answers)
  }

  ghost predicate Delivered(before: Flow, answers: TickAnswers) {
    before.Go? ==> forall o :: o in answers.outcomes ==> FromThisProcess(before.s, o)
  }

  lemma DurableOk(c: Config, w: World, s: Sys, after: nat)
    requires WorldOk(w) && CoreOk(c, w, s)
    ensures DiskOk(w, Durable(s, after))
  {
    hide DiskOk, SafeWrite, WorldOk, EffectsOk;
    if after <= |s.wal| {
      CrashPointsKeep(w, s.base, s.wal, after);
    }
  }

  lemma StepKeeps(c: Config, w: World, before: Flow, event: RunEvent)
    requires WorldOk(w) && FlowOk(c, w, before) && (before.Go? || before.Halt?)
    requires event.Poll? ==> Delivered(before, event.answers)
    ensures FlowOk(c, w, Step(c, w, before, event)) &&
            (Step(c, w, before, event).Go? || Step(c, w, before, event).Halt?)
  {
    hide Inv, CoreOk, WorldOk, Tick, Startup, Durable;
    match event
    case Poll(answers) => if before.Go? { TickKeeps(c, w, before.s, answers); }
    case Crash(after, listing) =>
      if before.Go? { InvParts(c, w, before.s); }
      DurableOk(c, w, before.s, after);
      StartupKeeps(c, w, Durable(before.s, after), listing);
  }

  /** Every run keeps the invariant: in the running process, and on disk when the loop has stopped. */
  lemma {:induction false} RunKeeps(c: Config, w: World, disk: Disk, events: seq<RunEvent>)
    requires WorldOk(w) && DiskOk(w, disk) && Plausible(c, w, disk, events)
    ensures var f := After(c, w, disk, events);
            FlowOk(c, w, f) && (f.Go? || f.Halt?) && CoreOk(c, w, f.s)
    decreases |events|
  {
    hide Inv, CoreOk, WorldOk, DiskOk, Step, Delivered;
    if events == [] {
      RestartKeeps(c, w, disk);
      InvParts(c, w, Restart(c, disk));
    } else {
      var rest := events[..|events| - 1];
      forall k | 0 <= k < |rest| && rest[k].Poll? ensures Delivered(After(c, w, disk, rest[..k]), rest[k].answers) {
        assert rest[..k] == events[..k] && rest[k] == events[k];
      }
      RunKeeps(c, w, disk, rest);
      var last := |events| - 1;
      assert events[last].Poll? ==> Delivered(After(c, w, disk, events[..last]), events[last].answers);
      StepKeeps(c, w, After(c, w, disk, rest), events[last]);
      var f := After(c, w, disk, events);
      if f.Go? { InvParts(c, w, f.s); }
    }
  }

  /** A new node's disk: nothing recorded, the checkpoint at its starting block. */
  function NewDisk(w: World): Disk {
    Disk(map[], map[], {}, map[], {}, Checkpoint(w.start, w.frames(w.start).hash), w.start, map[], map[], map[], map[],
      [], 0)
  }

  lemma NewDiskOk(w: World)
    ensures DiskOk(w, NewDisk(w)) && Recorded(NewDisk(w))
  {
  }

  // ----- the main theorems -----

  /**
   Two-phase retirement survives every crash point of every run. Whatever was offered or
   acknowledged for a block the restarted scan reads again is still there, unchanged; and
   a record the checkpoint has left behind has its removal recorded.
   */
  lemma RetirementIsCrashSafe(c: Config, w: World, events: seq<RunEvent>, after: nat, k: Key)
    requires WorldOk(w) && Plausible(c, w, NewDisk(w), events)
    ensures var d := Durable(After(c, w, NewDisk(w), events).s, after);
            && (k in d.everOffered && d.closure.number < k.cursor ==> k in d.offers && d.offers[k] == d.everOffered[k])
            && (k in d.everAcked && d.closure.number < k.cursor ==> k in d.acks && d.acks[k] == d.everAcked[k])
            && (k in d.acks ==> k in d.offers && d.acks[k].ref == d.offers[k])
            && (k in d.offers && k.cursor <= d.closure.number ==>
              k in d.retirements && d.retirements[k].ref == d.offers[k])
            && (k in d.retirements && d.closure.number < d.retirements[k].closedThrough ==> k in d.offers)
  {
    hide After, Plausible, Durable, NewDisk, CoreOk, WorldOk, Inv;
    NewDiskOk(w);
    RunKeeps(c, w, NewDisk(w), events);
    DurableOk(c, w, After(c, w, NewDisk(w), events).s, after);
  }

  /**
   The closure checkpoint is safe at every crash point of every run: it is a block of the
   finalized chain, every request at or below it is terminal in a finalized state that was
   seen, and the published FinishedHeights are blocks of the chain that never go back and
   never run ahead of it.
   */
  lemma ClosureIsSafe(c: Config, w: World, events: seq<RunEvent>, after: nat)
    requires WorldOk(w) && Plausible(c, w, NewDisk(w), events)
    ensures var d := Durable(After(c, w, NewDisk(w), events).s, after);
            && d.closure.hash == w.frames(d.closure.number).hash && d.closure.number <= d.projected
            && SettledIn(w, w.start, d.closure.number, d.seen)
            && FinishedOk(w, d.closure, d.finished)
  {
    hide After, Plausible, Durable, NewDisk, CoreOk, WorldOk, Inv, FilesOk, RestartSafe, NothingLeaks;
    NewDiskOk(w);
    RunKeeps(c, w, NewDisk(w), events);
    DurableOk(c, w, After(c, w, NewDisk(w), events).s, after);
  }

  /** The state a run that is still going has reached satisfies the invariant. */
  lemma Reached(c: Config, w: World, events: seq<RunEvent>)
    requires WorldOk(w) && Plausible(c, w, NewDisk(w), events)
    ensures var f := After(c, w, NewDisk(w), events);
            (f.Go? || f.Halt?) && CoreOk(c, w, f.s) && (f.Go? ==> Inv(c, w, f.s))
  {
    hide After, Plausible, NewDisk, CoreOk, WorldOk, Inv;
    NewDiskOk(w);
    RunKeeps(c, w, NewDisk(w), events);
  }

  /** The tracked requests are exactly those of the scanned blocks above the durable closure. */
  lemma WindowIsExact(c: Config, w: World, events: seq<RunEvent>, i: Hash)
    requires WorldOk(w) && Plausible(c, w, NewDisk(w), events) && After(c, w, NewDisk(w), events).Go?
    ensures var s := After(c, w, NewDisk(w), events).s;
            && s.disk.closure.number <= s.scanned.number <= s.disk.projected
            && Linked(w, s.disk.closure.number, s.scanned.number)
            && (i in s.books.requests <==>
                  exists h: nat :: s.disk.closure.number < h <= s.scanned.number && Carries(w, h, i))
            && (i in s.books.requests ==> Carries(w, s.books.requests[i].blockNumber, i)
                                          && s.books.requests[i] == LocatorAt(w, s.books.requests[i].blockNumber))
  {
    hide After, Plausible, NewDisk, WorldOk, BooksOk, ViewOk, EffectsOk, TrackedOk, VotesOk, DiskOk, AllSafe, TargetOk;
    Reached(c, w, events);
    var s := After(c, w, NewDisk(w), events).s;
    if i in s.books.requests {
      assert Scanned(w, s.disk.closure.number, s.scanned.number, i, s.books.requests[i]);
      assert Carries(w, s.books.requests[i].blockNumber, i);
    }
    forall h: nat | s.disk.closure.number < h <= s.scanned.number && Carries(w, h, i) ensures i in s.books.requests {
      assert RequestKept(w, h, s.books.requests);
    }
  }

  ghost predicate Carries(w: World, h: nat, i: Hash) {
    h >= 1 && w.frames(h).observation.Some? && w.frames(h).observation.value.intentId == i
  }

  /**
   The maps agree in every reachable state. No outcome is ever classified as a
   disagreement; a generation names one job; a tracked job belongs to its request's intent
   and was finalized with exactly the spec it carries; acknowledged exports and pending
   offers name tracked jobs; and a closed request with a mapped job still has that job, so
   preparing its retirement never misses it.
   */
  lemma BooksAgree(c: Config, w: World, events: seq<RunEvent>, j: JobId, other: JobId, i: Hash)
    requires WorldOk(w) && Plausible(c, w, NewDisk(w), events) && After(c, w, NewDisk(w), events).Go?
    ensures var s := After(c, w, NewDisk(w), events).s;
            && ProjectionOf(s.books, j) == Some(if j in s.books.jobs then Active else CheckpointPruned)
            && (j in s.books.jobs && other in s.books.jobs ==>
                  s.books.jobs[j].generation == s.books.jobs[other].generation ==> j == other)
            && (j in s.books.jobs ==>
                  && j.intent in s.books.requests && JobOf(s.books.requests[j.intent]) == j
                  && w.records(s.viewed, j.intent).finalized.Some?
                  && s.books.jobs[j].spec == SpecFor(s.books.requests[j.intent], w.records(s.viewed, j.intent)))
            && (j in s.books.acknowledged ==> j in s.books.jobs && j in s.disk.retained)
            && (j in s.books.pendingOffers ==>
              j in s.books.jobs && s.books.pendingOffers[j] == OfferOf(s.books.jobs[j]))
            && (i in s.books.intentJobs && RequestClosed(s.books, i) ==>
                  s.books.intentJobs[i] in s.books.jobs && s.books.intentJobs[i] in s.books.reducer.jobs
                  && s.books.reducer.jobs[s.books.intentJobs[i]].terminal.Some?)
  {
    hide *;
    Reached(c, w, events);
    var s := After(c, w, NewDisk(w), events).s;
    JobAgrees(c, w, s, j, other);
    ExportsAgree(c, w, s, j, i);
  }

  lemma JobAgrees(c: Config, w: World, s: Sys, j: JobId, other: JobId)
    requires Inv(c, w, s)
    ensures ProjectionOf(s.books, j) == Some(if j in s.books.jobs then Active else CheckpointPruned)
    ensures j in s.books.jobs && other in s.books.jobs ==>
              s.books.jobs[j].generation == s.books.jobs[other].generation ==> j == other
    ensures j in s.books.jobs ==>
              && j.intent in s.books.requests && JobOf(s.books.requests[j.intent]) == j
              && w.records(s.viewed, j.intent).finalized.Some?
              && s.books.jobs[j].spec == SpecFor(s.books.requests[j.intent], w.records(s.viewed, j.intent))
  {
    hide WorldOk, ScanOk, EffectsOk, TrackedOk, VotesOk, DiskOk, AllSafe, TargetOk, JobOk;
    ProjectionsAgree(c.policy, s.books, j);
  }

  lemma ExportsAgree(c: Config, w: World, s: Sys, j: JobId, i: Hash)
    requires Inv(c, w, s)
    ensures j in s.books.acknowledged ==> j in s.books.jobs && j in s.disk.retained
    ensures j in s.books.pendingOffers ==> j in s.books.jobs && s.books.pendingOffers[j] == OfferOf(s.books.jobs[j])
    ensures i in s.books.intentJobs && RequestClosed(s.books, i) ==>
              s.books.intentJobs[i] in s.books.jobs && s.books.intentJobs[i] in s.books.reducer.jobs
              && s.books.reducer.jobs[s.books.intentJobs[i]].terminal.Some?
  {
    hide WorldOk, ScanOk, ViewOk, EffectsOk, TrackedOk, VotesOk, DiskOk, AllSafe, TargetOk, ReducerOk, RequestClosed;
    if i in s.books.intentJobs && RequestClosed(s.books, i) { ClosedJobPresent(c.policy, s.books, i); }
  }

  /**
   Work is started only where it is authorised, and once. Every offer and every Validator
   computation was started with the scan caught up to the sampled target, so history alone
   never authorises one; a computation found, when it was spawned, the exact ACK of its job's
   offer in retention, and retention still holds that ACK; a vote needs a Validator that is in
   the pinned committee; a released job was adopted on the exact ACK that retention claims
   for it, or that it then retained, unless the job expired without one. Within a process no
   job is computed or voted on twice. This holds also when the loop has stopped.
   */
  lemma EffectsAreEntitled(c: Config, w: World, events: seq<RunEvent>, x: nat, y: nat)
    requires WorldOk(w) && Plausible(c, w, NewDisk(w), events)
    requires x < |After(c, w, NewDisk(w), events).s.effects| && y < |After(c, w, NewDisk(w), events).s.effects|
    ensures var s := After(c, w, NewDisk(w), events).s;
            var e := s.effects[x];
            && (e.Offered? ==> e.scanned == e.target)
            && (e.Computed? ==>
                  && e.offer.spec.jobId == e.job && e.held.Some? && e.held.value.ref == e.offer
                  && RetainedFor(s.disk, e.job) == e.held
                  && (c.policy == Validator ==> e.scanned == e.target))
            && (e.Voted? ==> c.policy == Validator && w.member(e.job.intent))
            && (e.Adopted? && e.terms.Some? ==>
                  e.claim.generation == e.terms.value.source
                  && e.found == Some(Ack(e.claim, e.terms.value.lease, e.terms.value.manifest)))
            && (e.Adopted? && e.terms.None? && e.status != Expired ==>
                  e.found.Some? && e.found.value.ref == e.claim && RetainedFor(s.disk, e.job) == e.found)
            && (x != y ==> !SameWork(e, s.effects[y]))
  {
    hide After, Plausible, NewDisk, WorldOk, DiskOk, AllSafe, Inv;
    Reached(c, w, events);
    var s := After(c, w, NewDisk(w), events).s;
    assert s.effects[x] in s.effects;
    assert Entitled(c.policy, w, s.disk.retained, s.effects[x]);
  }

  /** What the maps say stands for something done, in every run, also when the loop has stopped. */
  lemma {:induction false} RunStands(c: Config, w: World, disk: Disk, events: seq<RunEvent>)
    requires Recorded(disk)
    ensures var s := After(c, w, disk, events).s; AllStand(s) && OwnIntents(s.books.requests)
    decreases |events|
  {
    hide AllStand, OwnIntents, Recorded, Tick, Startup, Durable;
    if events == [] {
      RestartStands(c, disk);
    } else {
      RunStands(c, w, disk, events[..|events| - 1]);
      var before := After(c, w, disk, events[..|events| - 1]);
      match events[|events| - 1]
      case Poll(answers) => if before.Go? { TickStands(c, w, before.s, answers); }
      case Crash(after, listing) =>
        DurableRecorded(before.s, after);
        StartupStands(c, Durable(before.s, after), listing);
    }
  }

  lemma DurableRecorded(s: Sys, after: nat)
    requires AllStand(s)
    ensures Recorded(Durable(s, after))
  {
    hide Stands;
    WritesGrow(s.base, if after <= |s.wal| then s.wal[..after] else s.wal);
  }

  /**
   The bookkeeping is backed by what is on disk and by what was spawned. In every reachable
   running state a pending offer is in the spool; an acknowledged job, and so every job that
   is marked as computing, has the exact ACK of its own offer both in the spool and in
   retention; a job marked as computing was spawned by this process or has a durable result;
   and a job marked as voted is not a member's or was spawned.
   */
  lemma MarksAreBacked(c: Config, w: World, events: seq<RunEvent>, j: JobId)
    requires WorldOk(w) && Plausible(c, w, NewDisk(w), events) && After(c, w, NewDisk(w), events).Go?
    ensures var s := After(c, w, NewDisk(w), events).s;
            && (j in s.books.pendingOffers ==> KeyOf(s.books.pendingOffers[j]) in s.disk.offers)
            && (j in s.books.acknowledged ==> j in s.books.jobs && HasExport(s.disk, OfferOf(s.books.jobs[j])))
            && (j in s.books.jobs && s.books.jobs[j].computeStarted ==>
                  && HasExport(s.disk, OfferOf(s.books.jobs[j]))
                  && j in s.books.acknowledged && (j in s.disk.results || Computes(s.effects, j)))
            && (j in s.books.jobs && s.books.jobs[j].voteStarted ==>
              s.books.jobs[j].eligibility == NotMember || Voted(j) in s.effects)
  {
    hide After, Plausible, NewDisk, WorldOk, Inv, CoreOk, AllStand;
    Reached(c, w, events);
    NewDiskOk(w);
    RunStands(c, w, NewDisk(w), events);
    MarksFacts(c, w, After(c, w, NewDisk(w), events).s, j);
  }

  /** The spool holds exactly the offer `ref` and an ACK of it, and retention holds the same ACK. */
  predicate HasExport(d: Disk, ref: OfferRef) {
    && KeyOf(ref) in d.offers && d.offers[KeyOf(ref)] == ref
    && KeyOf(ref) in d.acks && d.acks[KeyOf(ref)].ref == ref
    && RetainedFor(d, ref.spec.jobId) == Some(d.acks[KeyOf(ref)])
  }

  lemma MarksFacts(c: Config, w: World, s: Sys, j: JobId)
    requires Inv(c, w, s) && AllStand(s)
    ensures j in s.books.pendingOffers ==> KeyOf(s.books.pendingOffers[j]) in s.disk.offers
    ensures j in s.books.acknowledged ==> j in s.books.jobs && HasExport(s.disk, OfferOf(s.books.jobs[j]))
    ensures j in s.books.jobs ==>
            FlagsStand(s.books.jobs[j], j, j in s.books.acknowledged, j in s.disk.results, s.effects)
  {
    hide ViewOk, EffectsOk, TrackedOk, VotesOk, AllSafe, TargetOk, ReducerOk, FlagsStand, NothingLeaks, Anchored,
      FinishedOk, SettledIn;
    assert Stands(s, j);
    if j in s.books.jobs {
      assert Scanned(w, s.disk.closure.number, s.scanned.number, j.intent, s.books.requests[j.intent]);
    }
  }

  /** No vote is lost: a durable result of an eligible member was voted on by this process, unless the job is
      settled. */
  lemma NoVoteIsLost(c: Config, w: World, events: seq<RunEvent>, j: JobId)
    requires WorldOk(w) && Plausible(c, w, NewDisk(w), events) && After(c, w, NewDisk(w), events).Go?
    ensures var s := After(c, w, NewDisk(w), events).s;
            j in s.books.jobs && s.books.jobs[j].eligibility == Eligible && s.books.jobs[j].computeStarted &&
              j in s.disk.results ==>
              j in s.books.reducer.jobs && (Voted(j) in s.effects || s.books.reducer.jobs[j].terminal.Some?)
  {
    hide After, Plausible, NewDisk, WorldOk, Inv, CoreOk, AllStand;
    Reached(c, w, events);
    NewDiskOk(w);
    RunStands(c, w, NewDisk(w), events);
    VoteSpawned(c, w, After(c, w, NewDisk(w), events).s, j);
  }

  lemma VoteSpawned(c: Config, w: World, s: Sys, j: JobId)
    requires Inv(c, w, s) && AllStand(s)
    ensures j in s.books.jobs && s.books.jobs[j].eligibility == Eligible && s.books.jobs[j].computeStarted &&
            j in s.disk.results ==>
              j in s.books.reducer.jobs && (Voted(j) in s.effects || s.books.reducer.jobs[j].terminal.Some?)
  {
    hide ScanOk, ViewOk, EffectsOk, TrackedOk, DiskOk, AllSafe, TargetOk, ReducerOk, ExportsOk, Recorded;
    assert Stands(s, j);
  }

  /**
   A driven refresh that succeeds has served every open request, in one pass, whatever the
   surroundings answered: a tracked job of a VotingOpen request waits on a persisted offer
   or is acknowledged; an acknowledged one is computing, or its result is durable; and a
   durable result of an eligible member is voted on.
   */
  lemma DrivenRefreshServes(c: Config, w: World, s: Sys, answers: Hash -> Answers, target: nat, i: Hash)
    requires WorldOk(w) && Inv(c, w, s) && AllStand(s) && s.viewed <= target == s.scanned.number &&
             s.recoveryTarget == Some(target)
    requires i in s.books.requests && w.records(target, i).status == VotingOpen
    ensures var f := Refresh(c, w, s, answers, target, true);
            var j := JobOf(s.books.requests[i]);
            f.Go? && j in f.s.books.jobs ==>
              && (j !in f.s.books.acknowledged ==>
                j in f.s.books.pendingOffers && KeyOf(f.s.books.pendingOffers[j]) in f.s.disk.offers)
              && (j in f.s.books.acknowledged ==>
                f.s.books.jobs[j].computeStarted && (j in f.s.disk.results || Computes(f.s.effects, j)))
              && (j in f.s.books.acknowledged && j in f.s.disk.results && f.s.books.jobs[j].eligibility == Eligible ==>
                Voted(j) in f.s.effects)
  {
    hide Inv, CoreOk, WorldOk, AllStand, Refresh, ApplyAll;
    IntentsAreOwn(c, w, s);
    RefreshKeeps(c, w, s, answers, target, true);
    RefreshStands(c, w, s, answers, target, true);
    var f := Refresh(c, w, s, answers, target, true);
    if f.Go? && JobOf(s.books.requests[i]) in f.s.books.jobs { ServedStands(c, w, f.s, i); }
  }

  lemma IntentsAreOwn(c: Config, w: World, s: Sys)
    requires Inv(c, w, s)
    ensures OwnIntents(s.books.requests)
  {
    hide CoreOk, ScanOk, ViewOk, TrackedOk, VotesOk, TargetOk, ExportsOk, ReducerOk;
  }

  lemma ServedStands(c: Config, w: World, s: Sys, i: Hash)
    requires Inv(c, w, s) && AllStand(s) && i in s.books.requests && w.records(s.viewed, i).status == VotingOpen
    requires JobOf(s.books.requests[i]) in s.books.jobs && Served(s.books, JobOf(s.books.requests[i]))
    ensures var j := JobOf(s.books.requests[i]);
            && (j !in s.books.acknowledged ==>
              j in s.books.pendingOffers && KeyOf(s.books.pendingOffers[j]) in s.disk.offers)
            && (j in s.books.acknowledged ==>
              s.books.jobs[j].computeStarted && (j in s.disk.results || Computes(s.effects, j)))
            && (j in s.books.acknowledged && j in s.disk.results && s.books.jobs[j].eligibility == Eligible ==>
              Voted(j) in s.effects)
  {
    hide Inv, CoreOk, WorldOk, AllStand;
    var j := JobOf(s.books.requests[i]);
    MarksFacts(c, w, s, j);
    if j in s.books.acknowledged && j in s.disk.results && s.books.jobs[j].eligibility == Eligible {
      VoteSpawned(c, w, s, j);
      OpenIsNotTerminal(c, w, s, i);
    }
  }

  lemma OpenIsNotTerminal(c: Config, w: World, s: Sys, i: Hash)
    requires Inv(c, w, s) && i in s.books.requests && w.records(s.viewed, i).status == VotingOpen
    ensures var j := JobOf(s.books.requests[i]); j in s.books.reducer.jobs ==> s.books.reducer.jobs[j].terminal.None?
  {
    hide CoreOk, ScanOk, TrackedOk, VotesOk, TargetOk, ExportsOk, ReducerOk;
  }

  /** The flush stops only where it must: at the scanned block, or right below an open request. */
  lemma TargetIsMaximal(c: Config, w: World, s: Sys)
    requires Inv(c, w, s)
    ensures FlushTarget(s) == s.scanned ||
              exists i :: i in s.books.requests && !RequestClosed(s.books, i) &&
                s.books.requests[i].blockNumber == FlushTarget(s).number + 1
  {
    hide ViewOk, EffectsOk, TrackedOk, VotesOk, DiskOk, AllSafe, TargetOk, BooksOk;
    var low := LowestOpen(s.books, SortedKeys(s.books.requests.Keys));
    if low.Some? {
      assert Scanned(w, s.disk.closure.number, s.scanned.number, low.value, s.books.requests[low.value]);
    }
  }

  // ----- restarts finish what was prepared -----

  /** No recorded removal in `keys` is due at `closed`. */
  ghost predicate NoneDue(d: Disk, keys: seq<Key>, closed: nat) {
    forall k :: k in keys && k in d.retirements ==> closed < d.retirements[k].closedThrough
  }

  /** A completion that succeeds has removed whatever was due, and records no new removal. */
  lemma {:induction false} CompletedNoneDue(s: Sys, listing: seq<Key>, closed: nat)
    ensures var f := CompleteAll(s, listing, closed);
            && f.s.books == s.books
            && (forall k :: k in f.s.disk.retirements ==>
              k in s.disk.retirements && f.s.disk.retirements[k] == s.disk.retirements[k])
            && (f.Go? ==> NoneDue(f.s.disk, listing, closed))
    decreases |listing|
  {
    hide PlanComplete, ApplyAll;
    if listing != [] {
      var rest := listing[..|listing| - 1];
      var k := listing[|listing| - 1];
      CompletedNoneDue(s, rest, closed);
      var before := CompleteAll(s, rest, closed).s;
      CompletionRemoves(before.disk, k, closed);
      assert forall o :: o in listing ==> o in rest || o == k;
    }
  }

  lemma CompletionRemoves(d: Disk, k: Key, closed: nat)
    ensures var p := PlanComplete(d, k, closed);
            var e := ApplyAll(d, p.writes);
            && (forall o :: o in e.retirements ==> o in d.retirements && e.retirements[o] == d.retirements[o])
            && (p.ok && k in e.retirements ==> closed < e.retirements[k].closedThrough)
  {
    hide ApplyAll;
    ErasureSteps(d, k);
    SingleQuarantine(d, k);
    assert ApplyAll(d, []) == d by { NoWrites(d); }
  }

  lemma SingleQuarantine(d: Disk, k: Key)
    ensures ApplyAll(d, [PutQuarantine(k)]).retirements == d.retirements
  {
    hide ApplyAll;
    OneWrite(d, PutQuarantine(k));
  }

  /** A flush that succeeds leaves no removal that its checkpoint authorises undone. */
  lemma FlushLeavesNoneDue(c: Config, s: Sys, first: seq<Key>, second: seq<Key>)
    ensures var f := Flush(c, s, first, second);
            var advances := s.disk.closure.number < FlushTarget(s).number;
            f.Go? ==> NoneDue(f.s.disk, if advances then second else first, if advances then FlushTarget(s).number
              else s.disk.closure.number)
  {
    hide PrepareAll, CompleteAll, PruneAll, FlushTarget, ClosingIntents, ApplyAll, NoneDue;
    var target := FlushTarget(s);
    var order := SortedKeys(s.books.requests.Keys);
    if s.disk.closure.number < target.number {
      var p := PrepareAll(c, s, order, target.number);
      if p.Go? {
        var q := CompleteAll(p.s, first, s.disk.closure.number);
        if q.Go? { FinishNoneDue(q.s, target, second); }
      }
    } else {
      var p := PrepareAll(c, s, order, s.disk.closure.number);
      if p.Go? {
        CompletedNoneDue(p.s, first, s.disk.closure.number);
        var q := CompleteAll(p.s, first, s.disk.closure.number).s;
        PruneDisk(q, ClosingIntents(q.books, SortedKeys(q.books.requests.Keys), s.disk.closure.number));
      }
    }
  }

  lemma FinishNoneDue(s: Sys, target: Checkpoint, second: seq<Key>)
    ensures FinishFlush(s, target, second).Go? ==> NoneDue(FinishFlush(s, target, second).s.disk, second, target.number)
  {
    hide CompleteAll, PruneAll, ClosingIntents, ApplyAll;
    var t := WriteAll(s, [AdvanceClosure(target, s.viewed)]);
    CompletedNoneDue(t, second, target.number);
    var u := CompleteAll(t, second, target.number).s;
    PruneDisk(u, ClosingIntents(u.books, SortedKeys(u.books.requests.Keys), target.number));
    PublishedRetirements(u.disk, target);
  }

  lemma PublishedRetirements(d: Disk, p: Checkpoint)
    ensures ApplyAll(d, [Publish(p)]).retirements == d.retirements
  {
    hide ApplyAll;
    OneWrite(d, Publish(p));
  }

  lemma {:induction false} PruneDisk(s: Sys, closing: seq<Hash>)
    ensures PruneAll(s, closing).s.disk == s.disk
    decreases |closing|
  {
    hide PruneOne;
    if closing != [] { PruneDisk(s, closing[..|closing| - 1]); }
  }

  lemma CompleteOne(w: World, d: Disk, k: Key, closed: nat)
    requires DiskOk(w, d) && k in d.retirements && k !in d.quarantine
    ensures var p := PlanComplete(d, k, closed);
            var e := ApplyAll(d, p.writes);
            && p.ok && e.quarantine == d.quarantine && e.closure == d.closure
            && (forall o :: o in e.retirements ==> o in d.retirements && e.retirements[o] == d.retirements[o])
            && (k in e.retirements ==> closed < e.retirements[k].closedThrough)
  {
    CompletionNeverStuck(w, d, k, closed);
    CompleteShape(w, d, k, closed);
    ErasureSteps(d, k);
  }

  lemma {:induction false} CompleteFinishes(c: Config, w: World, s: Sys, listing: seq<Key>, closed: nat)
    requires WorldOk(w) && CoreOk(c, w, s) && closed <= s.disk.closure.number
    requires forall k :: k in listing ==> k !in s.disk.quarantine
    ensures var f := CompleteAll(s, listing, closed);
            && f.Go? && CoreOk(c, w, f.s) && NoneDue(f.s.disk, listing, closed)
            && f.s.disk.quarantine == s.disk.quarantine && f.s.disk.closure == s.disk.closure
            && (forall k :: k in f.s.disk.retirements ==>
              k in s.disk.retirements && f.s.disk.retirements[k] == s.disk.retirements[k])
    decreases |listing|
  {
    hide CoreOk, WorldOk, DiskOk, PlanComplete, ApplyAll;
    if listing != [] {
      var rest := listing[..|listing| - 1];
      var k := listing[|listing| - 1];
      CompleteFinishes(c, w, s, rest, closed);
      var before := CompleteAll(s, rest, closed).s;
      if k in before.disk.retirements {
        CoreDisk(c, w, before);
        CompleteOne(w, before.disk, k, closed);
        LeakFree(w, before.disk);
        CompleteWrites(w, before.disk, k, closed, before.disk.closure.number);
        PlanKeeps(c, w, before, PlanComplete(before.disk, k, closed));
      }
      assert forall o :: o in listing ==> o in rest || o == k;
    }
  }

  /**
   A restart finishes the retirements its checkpoint authorises: from any crash point, if
   nothing recorded is quarantined, startup succeeds, and every record still left below the
   checkpoint waits for a higher checkpoint its removal is recorded for.
   */
  lemma RestartFinishes(c: Config, w: World, events: seq<RunEvent>, after: nat, listing: seq<Key>, k: Key)
    requires WorldOk(w) && Plausible(c, w, NewDisk(w), events)
    requires var d := Durable(After(c, w, NewDisk(w), events).s, after);
             (forall o :: o in d.retirements <==> o in listing) && forall o :: o in listing ==> o !in d.quarantine
    ensures var f := Startup(c, Durable(After(c, w, NewDisk(w), events).s, after), listing);
            && f.Go?
            && (k in f.s.disk.offers && k.cursor <= f.s.disk.closure.number ==>
                  k in f.s.disk.retirements && f.s.disk.closure.number < f.s.disk.retirements[k].closedThrough)
  {
    hide After, Plausible, Durable, NewDisk, CoreOk, WorldOk, Inv, DiskOk, CompleteAll;
    Reached(c, w, events);
    var d := Durable(After(c, w, NewDisk(w), events).s, after);
    DurableOk(c, w, After(c, w, NewDisk(w), events).s, after);
    RestartKeeps(c, w, d);
    InvParts(c, w, Restart(c, d));
    CompleteFinishes(c, w, Restart(c, d), listing, d.closure.number);
    var t := Startup(c, d, listing).s;
    CoreDisk(c, w, t);
    LeakFree(w, t.disk);
  }
}
