/**
 The embedded job reducer: `EmbeddedOcompJobsV1`. Every asynchronous result of a job is
 reduced here before the observer acts on it. The functions say what one event does; the
 class updates the registry in place and is proved against them.
 */
module OcompReducer {
  import opened Basics
  import opened OcompTypes

  datatype JobState = Computing | WaitAtDeadline | LocalReady | Verified | Closed | Mismatched

  datatype Event =
    | LocalCompleted(generation: nat, digest: Hash)
    | LocalFailed(generation: nat)
    | DeadlineReached
    | CanonicalCompleted(digest: Hash)
    | CanonicalClosed(reason: Reason)
    | VoteFinalized(generation: nat, success: bool)
    | VoteFailed(generation: nat)

  datatype Action =
    | SubmitVote(digest: Hash)
    | AwaitCanonical
    | AwaitLocalResult
    | HoldProgress(throughHeight: nat)
    | ReleaseProgress
    | FatalMismatch(local: Hash, canonical: Hash)
    | CloseTerminal(reason: Reason)
    | Abstain
    | FatalLocalFailure
    | VoteSettled(success: bool)
    | FatalVoteFailure
    | ProtocolOwned

  datatype ReducerError =
    | InvalidJob | InvalidResult | InvalidTerminalReason | GenerationExhausted
    | ConflictingReplay | ConflictingLocalResult | ConflictingCanonicalTerminal
    | UnknownJob | JobNotTerminal

  datatype Job = Job(
    generation: nat,
    deadline: nat,
    local: Option<Hash>,
    canonical: Option<Hash>,
    terminal: Option<Reason>,
    state: JobState)

  datatype Reducer = Reducer(mode: Policy, nextGeneration: nat, jobs: map<JobId, Job>)

  datatype Reduced = Reduced(job: Job, action: Action) | Rejected(error: ReducerError)

  datatype Observed = Observed(reducer: Reducer, generation: nat) | Refused(error: ReducerError)

  predicate Live(state: JobState) {
    state == Computing || state == WaitAtDeadline || state == LocalReady
  }

  function NewReducer(mode: Policy): Reducer {
    Reducer(mode, 1, map[])
  }

  function NewJob(generation: nat, deadline: nat): Job {
    Job(generation, deadline, None, None, None, Computing)
  }

  function Observe(r: Reducer, id: JobId, deadline: nat): (o: Observed) {
    if deadline == 0 then Refused(InvalidJob)
    else if id in r.jobs then
      if r.jobs[id].deadline == deadline then Observed(r, r.jobs[id].generation)
      else Refused(ConflictingReplay)
    else if r.nextGeneration >= U64_MAX then Refused(GenerationExhausted)
    else Observed(
           r.(nextGeneration := r.nextGeneration + 1,
              jobs := r.jobs[id := NewJob(r.nextGeneration, deadline)]),
           r.nextGeneration)
  }

  function ReduceLocalCompleted(mode: Policy, job: Job, digest: Hash): Reduced {
    if job.terminal == Some(CompletedReason) && (job.state == Verified || job.state == Mismatched) then
      Reduced(job, ProtocolOwned)
    else if job.local.Some? && job.local.value != digest then
      Rejected(ConflictingLocalResult)
    else if job.terminal == Some(ExpiredReason) || job.terminal == Some(FailedReason) then
      Reduced(job, ProtocolOwned)
    else
      var kept := job.(local := Some(digest));
      match (mode, job.canonical)
      case (Validator, Some(_)) => Reduced(kept.(state := Verified), ProtocolOwned)
      case (Validator, None) => Reduced(kept.(state := LocalReady), SubmitVote(digest))
      case (FullNode, None) => Reduced(kept.(state := LocalReady), AwaitCanonical)
      case (FullNode, Some(canonical)) =>
        if canonical == digest then Reduced(kept.(state := Verified), ReleaseProgress)
        else Reduced(kept.(state := Mismatched), FatalMismatch(digest, canonical))
  }

  function ReduceCanonicalCompleted(mode: Policy, job: Job, digest: Hash): Reduced {
    if (job.canonical.Some? && job.canonical.value != digest)
       || (job.terminal.Some? && job.terminal.value != CompletedReason) then
      Rejected(ConflictingCanonicalTerminal)
    else
      var settled := job.(canonical := Some(digest), terminal := Some(CompletedReason));
      if mode == Validator then Reduced(settled.(state := Verified), ProtocolOwned)
      else if job.local.None? then Reduced(settled, AwaitLocalResult)
      else if job.local.value == digest then Reduced(settled.(state := Verified), ReleaseProgress)
      else Reduced(settled.(state := Mismatched), FatalMismatch(job.local.value, digest))
  }

  /** What one event does to one job. */
  function ReduceJob(mode: Policy, job: Job, event: Event): Reduced {
    match event
    case LocalCompleted(generation, digest) =>
      if digest == 0 then Rejected(InvalidResult)
      else if generation != job.generation then Reduced(job, ProtocolOwned)
      else ReduceLocalCompleted(mode, job, digest)
    case LocalFailed(generation) =>
      if generation != job.generation then Reduced(job, ProtocolOwned)
      else if job.state == Computing || job.state == WaitAtDeadline then
        Reduced(job, if mode == FullNode then FatalLocalFailure else Abstain)
      else Reduced(job, ProtocolOwned)
    case DeadlineReached =>
      if job.terminal.Some? || mode == Validator then Reduced(job, ProtocolOwned)
      else if job.local.Some? then Reduced(job, AwaitCanonical)
      else Reduced(job.(state := WaitAtDeadline), HoldProgress(job.deadline))
    case CanonicalCompleted(digest) =>
      if digest == 0 then Rejected(InvalidResult)
      else ReduceCanonicalCompleted(mode, job, digest)
    case CanonicalClosed(reason) =>
      if reason == CompletedReason then Rejected(InvalidTerminalReason)
      else if job.terminal.Some? && job.terminal.value != reason then Rejected(ConflictingCanonicalTerminal)
      else if job.terminal.Some? then Reduced(job, CloseTerminal(reason))
      else Reduced(job.(terminal := Some(reason), state := Closed), CloseTerminal(reason))
    case VoteFinalized(generation, success) =>
      if generation != job.generation || job.terminal.Some? then Reduced(job, ProtocolOwned)
      else Reduced(job, VoteSettled(success))
    case VoteFailed(generation) =>
      if generation != job.generation || job.terminal.Some? then Reduced(job, ProtocolOwned)
      else Reduced(job, FatalVoteFailure)
  }

  // ----- what every event keeps -----

  /**
   How the state, the two digests and the terminal reason of a job hang together. In
   particular a job that has left the live states always carries a terminal reason.
   */
  predicate JobOk(mode: Policy, job: Job) {
    && (job.canonical.Some? <==> job.terminal == Some(CompletedReason))
    && (job.terminal.None? ==>
          if job.local.Some? then job.state == LocalReady
          else job.state == Computing || (job.state == WaitAtDeadline && mode == FullNode))
    && (job.terminal == Some(ExpiredReason) || job.terminal == Some(FailedReason) ==> job.state == Closed)
    && (job.terminal == Some(CompletedReason) && mode == Validator ==> job.state == Verified)
    && (job.terminal == Some(CompletedReason) && mode == FullNode ==>
          if job.local.None? then job.state == Computing || job.state == WaitAtDeadline
          else if job.local == job.canonical then job.state == Verified
          else job.state == Mismatched)
  }

  /** `to` may follow `from`: identity fixed, digests and terminal reason written once. */
  predicate JobProgress(from: Job, to: Job) {
    && from.generation == to.generation && from.deadline == to.deadline
    && (from.terminal.Some? ==> to.terminal == from.terminal)
    && (from.local.Some? ==> to.local == from.local)
    && (from.canonical.Some? ==> to.canonical == from.canonical)
    && (!Live(from.state) ==> to.state == from.state)
  }

  /** One event keeps `JobOk` and never moves a job backwards. */
  lemma ReduceKeeps(mode: Policy, job: Job, event: Event)
    requires JobOk(mode, job)
    ensures match ReduceJob(mode, job, event)
            case Reduced(to, action) =>
              && JobOk(mode, to) && JobProgress(job, to)
              && (action.SubmitVote? ==> mode == Validator && to.terminal.None? && to.local == Some(action.digest))
              && (action.ReleaseProgress? ==> mode == FullNode && to.local.Some? && to.local == to.canonical)
              && (action.FatalMismatch? ==>
                mode == FullNode && to.local.Some? && to.canonical.Some? && to.local != to.canonical)
            case Rejected(_) => true
  {
    match event
    case LocalCompleted(_, digest) =>
      if digest != 0 && event.generation == job.generation { LocalCompletedKeeps(mode, job, digest); }
    case CanonicalCompleted(digest) =>
      if digest != 0 { CanonicalCompletedKeeps(mode, job, digest); }
    case _ =>
  }

  lemma LocalCompletedKeeps(mode: Policy, job: Job, digest: Hash)
    requires JobOk(mode, job)
    ensures match ReduceLocalCompleted(mode, job, digest)
            case Reduced(to, action) =>
              && JobOk(mode, to) && JobProgress(job, to)
              && (action.SubmitVote? ==> mode == Validator && to.terminal.None? && to.local == Some(action.digest))
              && (action.ReleaseProgress? ==> mode == FullNode && to.local.Some? && to.local == to.canonical)
              && (action.FatalMismatch? ==>
                mode == FullNode && to.local.Some? && to.canonical.Some? && to.local != to.canonical)
            case Rejected(_) => true
  {
    match job.terminal
    case None =>
    case Some(reason) => match reason { case CompletedReason => case ExpiredReason => case FailedReason => }
  }

  lemma CanonicalCompletedKeeps(mode: Policy, job: Job, digest: Hash)
    requires JobOk(mode, job)
    ensures match ReduceCanonicalCompleted(mode, job, digest)
            case Reduced(to, action) =>
              && JobOk(mode, to) && JobProgress(job, to) && !action.SubmitVote?
              && (action.ReleaseProgress? ==> mode == FullNode && to.local.Some? && to.local == to.canonical)
              && (action.FatalMismatch? ==>
                mode == FullNode && to.local.Some? && to.canonical.Some? && to.local != to.canonical)
            case Rejected(_) => true
  {
  }

  /** The job after a whole event history; a rejected event leaves it unchanged. */
  function RunJob(mode: Policy, job: Job, events: seq<Event>): Job {
    if events == [] then job
    else
      var before := RunJob(mode, job, events[..|events| - 1]);
      match ReduceJob(mode, before, events[|events| - 1])
      case Reduced(to, _) => to
      case Rejected(_) => before
  }

  /**
   Terminal authority is absorbing: over every event history, in every order, what the
   first `k` events settled is never changed by the later ones.
   */
  lemma {:induction false} TerminalIsAbsorbing(mode: Policy, job: Job, events: seq<Event>, k: nat)
    requires JobOk(mode, job)
    requires k <= |events|
    ensures JobOk(mode, RunJob(mode, job, events[..k]))
    ensures JobOk(mode, RunJob(mode, job, events))
    ensures JobProgress(RunJob(mode, job, events[..k]), RunJob(mode, job, events))
    decreases |events|
  {
    if k == |events| {
      assert events[..k] == events;
      if events != [] {
        var shorter := events[..|events| - 1];
        TerminalIsAbsorbing(mode, job, shorter, |shorter|);
        ReduceKeeps(mode, RunJob(mode, job, shorter), events[|events| - 1]);
      }
    } else {
      var shorter := events[..|events| - 1];
      TerminalIsAbsorbing(mode, job, shorter, k);
      assert shorter[..k] == events[..k];
      ReduceKeeps(mode, RunJob(mode, job, shorter), events[|events| - 1]);
    }
  }

  // ----- the height a FullNode may expose -----

  /** The job still stands in the way of exposing its deadline height. */
  predicate Holds(job: Job) {
    (job.terminal.None? || job.terminal.value == CompletedReason) && job.state != Verified
  }

  /** Exposing `height` would expose the deadline of no unverified job. */
  ghost predicate Exposable(jobs: map<JobId, Job>, height: nat) {
    forall id :: id in jobs && Holds(jobs[id]) ==> height < jobs[id].deadline
  }

  /** The registry invariant: deadlines and generations are in use, every job is `JobOk`. */
  ghost predicate ReducerOk(r: Reducer) {
    && 1 <= r.nextGeneration
    && (forall id :: id in r.jobs ==>
          JobOk(r.mode, r.jobs[id]) && 1 <= r.jobs[id].deadline && r.jobs[id].generation < r.nextGeneration)
    && (forall a, b :: a in r.jobs && b in r.jobs && r.jobs[a].generation == r.jobs[b].generation ==> a == b)
  }

  /** `EmbeddedOcompJobsV1`: the registry the observer updates in place. */
  class EmbeddedJobs {
    const mode: Policy
    var nextGeneration: nat
    var jobs: map<JobId, Job>

    ghost function View(): Reducer
      reads this
    {
      Reducer(mode, nextGeneration, jobs)
    }

    ghost predicate Valid()
      reads this
    {
      ReducerOk(View())
    }

    constructor (mode: Policy)
      ensures Valid() && View() == NewReducer(mode)
    {
      this.mode := mode;
      nextGeneration := 1;
      jobs := map[];
    }

    method ObserveJob(id: JobId, deadline: nat) returns (o: Observed)
      requires Valid()
      modifies this
      ensures Valid()
      ensures o == Observe(old(View()), id, deadline)
      ensures View() == if o.Observed? then o.reducer else old(View())
      ensures o.Observed? ==> id in jobs && jobs[id].generation == o.generation
    {
      if deadline == 0 { return Refused(InvalidJob); }
      if id in jobs {
        if jobs[id].deadline == deadline { return Observed(Reducer(mode, nextGeneration, jobs), jobs[id].generation); }
        return Refused(ConflictingReplay);
      }
      var generation := nextGeneration;
      if nextGeneration >= U64_MAX { return Refused(GenerationExhausted); }
      nextGeneration := nextGeneration + 1;
      jobs := jobs[id := NewJob(generation, deadline)];
      return Observed(Reducer(mode, nextGeneration, jobs), generation);
    }

    method ReduceEvent(id: JobId, event: Event) returns (r: Reduced)
      requires Valid()
      modifies this
      ensures Valid()
      ensures id !in old(jobs) ==> r == Rejected(UnknownJob)
      ensures id in old(jobs) ==> r == ReduceJob(mode, old(jobs)[id], event)
      ensures nextGeneration == old(nextGeneration)
      ensures jobs == if r.Reduced? then old(jobs)[id := r.job] else old(jobs)
    {
      if id !in jobs { return Rejected(UnknownJob); }
      r := ReduceJob(mode, jobs[id], event);
      ReduceKeeps(mode, jobs[id], event);
      if r.Reduced? { jobs := jobs[id := r.job]; }
    }

    method PruneTerminalJob(id: JobId) returns (error: Option<ReducerError>)
      requires Valid()
      modifies this
      ensures Valid()
      ensures nextGeneration == old(nextGeneration)
      ensures error.Some? <==> id in old(jobs) && old(jobs)[id].terminal.None?
      ensures jobs == if error.None? then old(jobs) - {id} else old(jobs)
    {
      if id !in jobs {
        assert jobs == jobs - {id};
        return None;
      }
      if jobs[id].terminal.None? { return Some(JobNotTerminal); }
      jobs := jobs - {id};
      return None;
    }

    /**
     Highest height a FullNode may expose: the greatest height up to `finalized` that is
     exposable. A Validator exposes everything.
     */
    method ProgressLimit(finalized: nat) returns (limit: nat)
      requires Valid()
      ensures limit <= finalized
      ensures mode == Validator ==> limit == finalized
      ensures mode == FullNode ==>
                && Exposable(jobs, limit)
                && forall higher :: limit < higher <= finalized ==> !Exposable(jobs, higher)
    {
      if mode == Validator { return finalized; }
      limit := finalized;
      var todo := jobs.Keys;
      while todo != {}
        invariant todo <= jobs.Keys
        invariant limit <= finalized
        invariant forall id :: id in jobs && id !in todo && Holds(jobs[id]) ==> limit < jobs[id].deadline
        invariant limit == finalized ||
                  exists id :: id in jobs && Holds(jobs[id]) && jobs[id].deadline == limit + 1
        decreases |todo|
      {
        var id :| id in todo;
        todo := todo - {id};
        if jobs[id].deadline <= finalized && Holds(jobs[id]) {
          if jobs[id].deadline - 1 < limit { limit := jobs[id].deadline - 1; }
        }
      }
    }
  }
}
