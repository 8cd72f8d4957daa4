/** Outcomes, the frame loop, the poll tick and startup keep the invariant. */
module OcompTick {
  import opened Basics
  import opened OcompTypes
  import opened OcompWorld
  import opened OcompReducer
  import opened OcompSpool
  import opened OcompObserver
  import opened OcompInvariant
  import opened OcompRefresh
  import opened OcompClosure

  // ----- refresh over all requests -----

  lemma {:induction false} RefreshLoopKeeps(c: Config, w: World, s: Sys, order: seq<Hash>, answers: Hash -> Answers,
      driven: bool)
    requires WorldOk(w) && Inv(c, w, s)
    requires driven ==> s.viewed == s.scanned.number
    ensures var f := RefreshLoop(c, w, s, order, answers, s.viewed, driven);
            FlowOk(c, w, f) && !f.Skip? && (!f.Halt? ==> Steady(s, f.s))
    decreases |order|
  {
    hide Inv, CoreOk, WorldOk, RefreshOne;
    if order != [] {
      RefreshLoopKeeps(c, w, s, order[..|order| - 1], answers, driven);
      var before := RefreshLoop(c, w, s, order[..|order| - 1], answers, s.viewed, driven);
      var i := order[|order| - 1];
      if before.Go? && i in before.s.books.requests {
        RefreshOneKeeps(c, w, before.s, i, answers(i), driven);
      }
    }
  }

  lemma ViewLater(w: World, low: nat, high: nat, b: Books)
    requires WorldOk(w) && ViewOk(w, low, b) && low <= high
    ensures ViewOk(w, high, b)
  {
    forall i ensures Progress(w.records(low, i), w.records(high, i)) {}
  }

  lemma ViewAdvances(c: Config, w: World, s: Sys, target: nat)
    requires WorldOk(w) && Inv(c, w, s) && s.viewed <= target && s.recoveryTarget == Some(target)
    ensures Inv(c, w, s.(viewed := target))
  {
    hide BooksOk, ScanOk, ViewOk, EffectsOk, TrackedOk, VotesOk, DiskOk, AllSafe, WorldOk;
    ViewLater(w, s.viewed, target, s.books);
  }

  lemma RefreshKeeps(c: Config, w: World, s: Sys, answers: Hash -> Answers, target: nat, driven: bool)
    requires WorldOk(w) && Inv(c, w, s) && s.viewed <= target && s.recoveryTarget == Some(target)
    requires driven ==> target == s.scanned.number
    ensures var f := Refresh(c, w, s, answers, target, driven);
            && FlowOk(c, w, f) && !f.Skip?
            && (!f.Halt? ==> f.s.viewed == target && f.s.scanned == s.scanned && f.s.recoveryTarget == s.recoveryTarget)
  {
    hide Inv, CoreOk, WorldOk, RefreshLoop;
    ViewAdvances(c, w, s, target);
    RefreshLoopKeeps(c, w, s.(viewed := target), SortedKeys(s.books.requests.Keys), answers, driven);
  }

  // ----- outcomes -----

  /** The result channel only carries outcomes of computations this process started. */
  ghost predicate FromThisProcess(s: Sys, o: Outcome) {
    o.ComputeDone? ==> exists e :: e in s.effects && e.Computed? && e.job == o.job && e.generation == o.generation
  }

  lemma OutcomeGeneration(c: Config, w: World, s: Sys, o: Outcome)
    requires Inv(c, w, s) && FromThisProcess(s, o) && o.ComputeDone? && o.job in s.books.jobs
    ensures s.books.jobs[o.job].computeStarted && s.books.jobs[o.job].generation == o.generation
  {
    hide BooksOk, ScanOk, ViewOk, EffectsOk, VotesOk, DiskOk, AllSafe, TargetOk;
    var e :| e in s.effects && e.Computed? && e.job == o.job && e.generation == o.generation;
    assert TrackedEffect(w, s.disk.closure.number, e, s.books.jobs);
  }

  lemma CommitKeeps(c: Config, w: World, s: Sys, j: JobId, digest: Hash)
    requires WorldOk(w) && Inv(c, w, s)
    ensures var f := CommitResult(s, j, digest);
            && CoreOk(c, w, f.s) && (f.Go? || f.Halt?)
            && (f.Go? ==> InvBut(c, w, f.s, j) && f.s == s.(disk := f.s.disk, wal := f.s.wal)
                          && f.s.disk.closure == s.disk.closure && f.s.disk.finished == s.disk.finished)
  {
    InvParts(c, w, s);
    InvIsInvBut(c, w, s, j);
    if j !in s.disk.results { NewResultKeeps(c, w, s, j, digest); }
    hide Inv, InvBut, CoreOk, WorldOk;
  }

  lemma NewResultKeeps(c: Config, w: World, s: Sys, j: JobId, digest: Hash)
    requires WorldOk(w) && InvBut(c, w, s, j) && j !in s.disk.results
    ensures var t := WriteAll(s, [PutResult(j, digest)]);
            InvBut(c, w, t, j) && CoreOk(c, w, t) && t.disk == s.disk.(results := s.disk.results[j := digest])
  {
    hide BooksOk, ScanOk, ViewOk, EffectsOk, TrackedOk, VotesOk, DiskOk, AllSafe, WorldOk, TargetOk;
    SingleSafe(w, s.disk, PutResult(j, digest));
    JournalGrows(w, s, [PutResult(j, digest)]);
    ResultVotes(c.policy, w, s.books.jobs - {j}, s.books.reducer.jobs, s.disk.results, j, digest);
  }

  lemma ResultVotes(policy: Policy, w: World, jobs: map<JobId, RuntimeJob>, reduced: map<JobId, Job>,
      results: map<JobId, Hash>, j: JobId, digest: Hash)
    requires VotesOk(policy, w, jobs, reduced, results) && j !in jobs
    ensures VotesOk(policy, w, jobs, reduced, results[j := digest])
  {
  }

  lemma ReducedOnlyKeeps(c: Config, w: World, s: Sys, j: JobId, event: Event)
    requires Inv(c, w, s) && j in s.books.jobs && (event.LocalFailed? || event.VoteFinalized? || event.VoteFailed?)
    ensures Reduce(s, j, event).Reduced? ==>
              var t := SetReduced(s, j, Reduce(s, j, event).job);
              Inv(c, w, t) && CoreOk(c, w, t) && CoreOk(c, w, t.(fatal := true))
  {
    hide Inv, InvBut, CoreOk, ReduceJob;
    InvIsInvBut(c, w, s, j);
    JobFacts(c, w, s, j);
    SettleKeeps(c, w, s, j, event);
    var reduced := Reduce(s, j, event);
    if reduced.Reduced? {
      SettledReason(s.books.reducer.mode, s.books.reducer.jobs[j], event);
      DueOnlyIfBefore(c, w, s, j, reduced.job);
      var t := SetReduced(s, j, reduced.job);
      InvButClosed(c, w, t, j);
      InvParts(c, w, t);
      FatalKeeps(c, w, t);
      InvParts(c, w, t.(fatal := true));
    }
  }

  /** The runtime and the reducer never disagree about a job. */
  lemma ProjectionsAgree(policy: Policy, b: Books, j: JobId)
    requires BooksOk(policy, b)
    ensures ProjectionOf(b, j) == Some(if j in b.jobs then Active else CheckpointPruned)
  {
    hide ReducerOk;
  }

  lemma OutcomeKeeps(c: Config, w: World, s: Sys, o: Outcome, a: Answers)
    requires WorldOk(w) && Inv(c, w, s) && FromThisProcess(s, o)
    ensures var f := HandleOutcome(s, o, a);
            && FlowOk(c, w, f) && (f.Go? || f.Halt?)
            && (f.Go? ==> Steady(s, f.s))
  {
    hide Inv, InvBut, CoreOk, WorldOk, ReduceJob, AcceptResult, CommitResult, FromThisProcess;
    InvParts(c, w, s);
    Projected(c, w, s, o.job);
    if o.job in s.books.jobs {
      match o
      case ComputeDone(j, generation, digest) =>
        OutcomeGeneration(c, w, s, o);
        CommitKeeps(c, w, s, j, digest);
        var f := CommitResult(s, j, digest);
        if f.Go? { AcceptKeeps(c, w, f.s, j, digest, a); }
      case ComputeFailed(j, generation) => ReducedOnlyKeeps(c, w, s, j, LocalFailed(generation));
      case VoteDone(j, generation, success) => ReducedOnlyKeeps(c, w, s, j, VoteFinalized(generation, success));
      case VoteLost(j, generation) => ReducedOnlyKeeps(c, w, s, j, VoteFailed(generation));
    }
  }

  lemma Projected(c: Config, w: World, s: Sys, j: JobId)
    requires Inv(c, w, s)
    ensures ProjectionOf(s.books, j) == Some(if j in s.books.jobs then Active else CheckpointPruned)
    ensures j in s.books.jobs <==> j in s.books.reducer.jobs
  {
    hide ScanOk, ViewOk, EffectsOk, TrackedOk, VotesOk, DiskOk, AllSafe, TargetOk, ReducerOk;
    ProjectionsAgree(c.policy, s.books, j);
  }

  /** Handling an outcome starts nothing but votes, and forgets nothing it started. */
  lemma OutcomeEffects(s: Sys, o: Outcome, a: Answers)
    ensures s.effects <= HandleOutcome(s, o, a).s.effects
  {
    hide Reduce, AcceptResult, ApplyAll;
    if o.ComputeDone? {
      AcceptEffects(CommitResult(s, o.job, o.digest).s, o.job, o.generation, o.digest, a);
    }
  }

  lemma AcceptEffects(s: Sys, j: JobId, generation: nat, digest: Hash, a: Answers)
    ensures s.effects <= AcceptResult(s, j, generation, digest, a).s.effects
  {
    hide Reduce;
  }

  lemma {:induction false} DrainKeeps(c: Config, w: World, s: Sys, outcomes: seq<Outcome>, a: Answers)
    requires WorldOk(w) && Inv(c, w, s) && forall o :: o in outcomes ==> FromThisProcess(s, o)
    ensures var f := Drain(s, outcomes, a);
            && FlowOk(c, w, f) && (f.Go? || f.Halt?)
            && (f.Go? ==> Steady(s, f.s) && s.effects <= f.s.effects)
    decreases |outcomes|
  {
    hide Inv, CoreOk, WorldOk, HandleOutcome;
    InvParts(c, w, s);
    if outcomes != [] {
      var rest := outcomes[..|outcomes| - 1];
      var o := outcomes[|outcomes| - 1];
      DrainKeeps(c, w, s, rest, a);
      var before := Drain(s, rest, a);
      if before.Go? {
        assert FromThisProcess(s, o);
        OutcomeKeeps(c, w, before.s, o, a);
        OutcomeEffects(before.s, o, a);
        var after := HandleOutcome(before.s, o, a);
        if after.Go? { InvParts(c, w, after.s); }
      }
    }
  }

  // ----- scanning -----

  /** Adding the request of the next block. */
  lemma AddRequestBooks(policy: Policy, w: World, viewed: nat, b: Books, i: Hash, l: Locator)
    requires BooksOk(policy, b) && ViewOk(w, viewed, b) && i !in b.requests && l.request.intentId == i
    ensures var to := b.(requests := b.requests[i := l]);
            BooksOk(policy, to) && ViewOk(w, viewed, to)
  {
    hide ReducerOk;
  }

  /** Extending the scan by one block whose parent is the scanned block. */
  lemma ExtendScan(w: World, closure: Checkpoint, scanned: Checkpoint, projected: nat, requests: map<Hash, Locator>,
      to: map<Hash, Locator>, reached: nat)
    requires ScanOk(w, closure, scanned, projected, requests)
    requires var h := scanned.number + 1;
             && w.frames(h).parent == scanned.hash && h <= reached && projected <= reached
             && (if w.frames(h).observation.None? then to == requests
                 else
                   var i := w.frames(h).observation.value.intentId;
                   i !in requests && to == requests[i := LocatorAt(w, h)] && w.records(h, i).intentHeight == h)
    ensures ScanOk(w, closure, Checkpoint(scanned.number + 1, w.frames(scanned.number + 1).hash), reached, to)
  {
    var h := scanned.number + 1;
    forall i | i in to ensures Scanned(w, closure.number, h, i, to[i]) {
      if i in requests { assert Scanned(w, closure.number, scanned.number, i, requests[i]); }
    }
    forall k: nat | closure.number < k <= h ensures RequestKept(w, k, to) {
      if k <= scanned.number { assert RequestKept(w, k, requests); }
    }
  }

  lemma ProjectCore(c: Config, w: World, s: Sys, h: nat)
    requires WorldOk(w) && CoreOk(c, w, s) && s.disk.projected < h
    ensures CoreOk(c, w, WriteAll(s, [Project(h)])) && WriteAll(s, [Project(h)]).disk == s.disk.(projected := h)
  {
    hide DiskOk, AllSafe, EffectsOk, WorldOk;
    SingleSafe(w, s.disk, Project(h));
    JournalGrows(w, s, [Project(h)]);
  }

  /** A request in the maps is never the one of the next block. */
  lemma NextIsNew(c: Config, w: World, s: Sys, i: Hash)
    requires Inv(c, w, s) && i in s.books.requests
    ensures s.books.requests[i].blockNumber <= s.scanned.number
  {
    NoneBelow(c, w, s, i);
  }

  /** Taking a frame touches the disk's projection, the requests and the scan, and nothing else. */
  lemma TakeFrameCore(c: Config, w: World, s: Sys, projectionOk: bool)
    requires WorldOk(w) && CoreOk(c, w, s)
    ensures CoreOk(c, w, TakeFrame(w, s, projectionOk).s)
    ensures var f := TakeFrame(w, s, projectionOk);
            && (f.Go? || f.Halt?)
            && (f.Go? ==>
                  && f.s == s.(disk := f.s.disk, wal := f.s.wal, books := s.books.(requests := f.s.books.requests),
                    scanned := f.s.scanned)
                  && f.s.disk == s.disk.(projected := if s.disk.projected <= s.scanned.number then s.scanned.number + 1
                    else s.disk.projected)
                  && f.s.scanned == Checkpoint(s.scanned.number + 1, w.frames(s.scanned.number + 1).hash)
                  && w.frames(s.scanned.number + 1).parent == s.scanned.hash)
  {
    hide DiskOk, AllSafe, EffectsOk, WorldOk, ApplyAll;
    var r := RecordRequest(w, s);
    if r.Go? && s.disk.projected <= s.scanned.number { ProjectCore(c, w, r.s, s.scanned.number + 1); }
  }

  lemma TakeFrameKeeps(c: Config, w: World, s: Sys, projectionOk: bool, target: nat)
    requires WorldOk(w) && Inv(c, w, s) && s.scanned.number < target && s.recoveryTarget == Some(target)
    ensures TakeFrame(w, s, projectionOk).Go? ==> Inv(c, w, TakeFrame(w, s, projectionOk).s)
  {
    hide BooksOk, ScanOk, ViewOk, EffectsOk, TrackedOk, VotesOk, DiskOk, AllSafe, WorldOk, ApplyAll;
    TakeFrameCore(c, w, s, projectionOk);
    var f := TakeFrame(w, s, projectionOk);
    if f.Go? {
      var h := s.scanned.number + 1;
      var o := w.frames(h).observation;
      if o.Some? {
        var i := o.value.intentId;
        if i in s.books.requests { NextIsNew(c, w, s, i); }
        AddRequestBooks(c.policy, w, s.viewed, s.books, i, LocatorAt(w, h));
      }
      ExtendScan(w, s.disk.closure, s.scanned, s.disk.projected, s.books.requests, f.s.books.requests,
        f.s.disk.projected);
    }
  }

  lemma ScanFrameKeeps(c: Config, w: World, s: Sys, a: FrameAnswers, target: nat)
    requires WorldOk(w) && Inv(c, w, s) && s.scanned.number < target && s.viewed <= target &&
             s.recoveryTarget == Some(target)
    ensures var f := ScanFrame(c, w, s, a, target);
            && FlowOk(c, w, f) && !f.Skip?
            && (!f.Halt? ==> f.s.viewed <= target && s.scanned.number <= f.s.scanned.number <= target &&
                             f.s.recoveryTarget == Some(target))
  {
    hide Inv, CoreOk, WorldOk, TakeFrame, Refresh;
    InvParts(c, w, s);
    TakeFrameCore(c, w, s, a.projectionOk);
    TakeFrameKeeps(c, w, s, a.projectionOk, target);
    var f := TakeFrame(w, s, a.projectionOk);
    if f.Go? { RefreshKeeps(c, w, f.s, a.jobs, target, false); }
  }

  lemma {:induction false} ScanFramesKeeps(c: Config, w: World, s: Sys, frames: seq<FrameAnswers>, target: nat)
    requires WorldOk(w) && Inv(c, w, s) && s.scanned.number <= target && s.viewed <= target &&
             s.recoveryTarget == Some(target)
    ensures var f := ScanFrames(c, w, s, frames, target);
            && FlowOk(c, w, f) && !f.Skip?
            && (!f.Halt? ==> f.s.viewed <= target && s.scanned.number <= f.s.scanned.number <= target &&
                             f.s.recoveryTarget == Some(target))
    decreases |frames|
  {
    hide Inv, CoreOk, WorldOk, ScanFrame;
    if frames != [] {
      ScanFramesKeeps(c, w, s, frames[..|frames| - 1], target);
      var before := ScanFrames(c, w, s, frames[..|frames| - 1], target);
      if before.Go? && before.s.scanned.number < target {
        ScanFrameKeeps(c, w, before.s, frames[|frames| - 1], target);
      }
    }
  }

  // ----- the tick -----

  /** A tick starts with an empty journal. */
  lemma FreshJournal(c: Config, w: World, s: Sys)
    requires Inv(c, w, s)
    ensures Inv(c, w, s.(base := s.disk, wal := []))
  {
    hide BooksOk, ScanOk, ViewOk, EffectsOk, TrackedOk, VotesOk, DiskOk, TargetOk;
  }

  lemma SampledTarget(c: Config, w: World, s: Sys, head: Option<nat>)
    requires Inv(c, w, s) && SampleTarget(s, head).Some?
    ensures var target := SampleTarget(s, head).value;
            s.viewed <= target && s.disk.closure.number <= s.scanned.number <= target &&
              Inv(c, w, s.(recoveryTarget := Some(target)))
  {
    hide BooksOk, ViewOk, EffectsOk, TrackedOk, VotesOk, DiskOk, AllSafe;
  }

  lemma AnnounceKeeps(c: Config, w: World, s: Sys, target: nat)
    requires WorldOk(w) && Inv(c, w, s) && s.disk.closure.number <= target
    ensures Announce(s, target).Go? && Inv(c, w, Announce(s, target).s)
    ensures var t := Announce(s, target).s;
            t.viewed == s.viewed && t.scanned == s.scanned && t.recoveryTarget == s.recoveryTarget
  {
    hide Inv, CoreOk, WorldOk;
    if !s.announced {
      PublishKeeps(c, w, s, s.disk.closure);
      Announced(c, w, WriteAll(s, [Publish(s.disk.closure)]));
    }
  }

  lemma Announced(c: Config, w: World, s: Sys)
    requires Inv(c, w, s)
    ensures Inv(c, w, s.(announced := true))
  {
    hide BooksOk, ScanOk, ViewOk, EffectsOk, TrackedOk, VotesOk, DiskOk, AllSafe, TargetOk;
  }

  /** A recovery whose driven refresh succeeded is over. */
  lemma RecoveredKeeps(c: Config, w: World, s: Sys)
    requires Inv(c, w, s) && s.viewed <= s.scanned.number
    ensures Inv(c, w, s.(recoveryTarget := None))
  {
    hide BooksOk, ScanOk, ViewOk, EffectsOk, TrackedOk, VotesOk, DiskOk, AllSafe;
  }

  lemma WorkKeeps(c: Config, w: World, s: Sys, t: TickAnswers, target: nat)
    requires WorldOk(w) && Inv(c, w, s) && s.scanned.number <= target && s.viewed <= target &&
             s.recoveryTarget == Some(target)
    ensures FlowOk(c, w, Work(c, w, s, t, target)) && (Work(c, w, s, t, target).Go? || Work(c, w, s, t, target).Halt?)
  {
    hide Inv, CoreOk, WorldOk, ScanFrames, Refresh, Flush;
    ScanFramesKeeps(c, w, s, t.frames, target);
    var scanned := ScanFrames(c, w, s, t.frames, target);
    if scanned.Halt? {
    } else if scanned.s.scanned.number != target {
      FlushKeeps(c, w, scanned.s, t.first, t.second);
    } else {
      RefreshKeeps(c, w, scanned.s, t.driven, target, true);
      var refreshed := Refresh(c, w, scanned.s, t.driven, target, true);
      if refreshed.Go? {
        RecoveredKeeps(c, w, refreshed.s);
        FlushKeeps(c, w, refreshed.s.(recoveryTarget := None), t.first, t.second);
      }
    }
  }

  /** One poll tick keeps the invariant, whatever its surroundings answer. */
  lemma TickKeeps(c: Config, w: World, s: Sys, t: TickAnswers)
    requires WorldOk(w) && Inv(c, w, s) && forall o :: o in t.outcomes ==> FromThisProcess(s, o)
    ensures FlowOk(c, w, Tick(c, w, s, t)) && (Tick(c, w, s, t).Go? || Tick(c, w, s, t).Halt?)
  {
    hide Inv, CoreOk, WorldOk, Drain, SampleTarget, Announce, Work, Flush;
    FreshJournal(c, w, s);
    var s0 := s.(base := s.disk, wal := []);
    DrainKeeps(c, w, s0, t.outcomes, t.outcomeAnswers);
    var drained := Drain(s0, t.outcomes, t.outcomeAnswers);
    if drained.Go? {
      var sampled := SampleTarget(drained.s, t.head);
      if sampled.None? {
        FlushKeeps(c, w, drained.s, t.first, t.second);
      } else {
        SampledTarget(c, w, drained.s, t.head);
        AnnounceKeeps(c, w, drained.s.(recoveryTarget := sampled), sampled.value);
        WorkKeeps(c, w, Announce(drained.s.(recoveryTarget := sampled), sampled.value).s, t, sampled.value);
      }
    }
  }

  // ----- startup -----

  lemma RestartKeeps(c: Config, w: World, disk: Disk)
    requires DiskOk(w, disk)
    ensures Inv(c, w, Restart(c, disk))
  {
    hide FilesOk, RestartSafe, NothingLeaks, FinishedOk;
  }

  lemma StartupKeeps(c: Config, w: World, disk: Disk, listing: seq<Key>)
    requires WorldOk(w) && DiskOk(w, disk)
    ensures FlowOk(c, w, Startup(c, disk, listing)) &&
            (Startup(c, disk, listing).Go? || Startup(c, disk, listing).Halt?)
  {
    hide Inv, CoreOk, WorldOk, DiskOk, Covered;
    RestartKeeps(c, w, disk);
    InvParts(c, w, Restart(c, disk));
    LeakFree(w, disk);
    CompleteKeeps(c, w, Restart(c, disk), listing, disk.closure.number, disk.closure.number);
  }
}
