/**
 When an upgrade ends as missed, over every run: exactly when a worker iteration past the
 activation height finds no binding to act on, or an operator marks the cutoff missed.
 */
module UpgradeCutoff {
  import opened Basics
  import opened UpgradeJournal
  import opened UpgradeHost
  import opened UpgradeRuns

  predicate IsMissed(f: Files) {
    f.journal.Some? && f.journal.value.MissedCutoff?
  }

  /** The upgrade is neither finalized nor over. */
  predicate IsOpen(f: Files) {
    f.journal.Some? && !f.journal.value.Finalized? && !f.journal.value.Promoted? && !f.journal.value.MissedCutoff?
  }

  // ----- the condition, read off the state before an event and the event -----

  /** The finalized state is readable, names no other successor, and is past the activation height. */
  predicate PastCutoff(c: Context, p: Poll) {
    p.status.Some? && SuccessorAgrees(p.status.value, c) && c.activation <= p.status.value.height
  }

  /** The finalized registry is readable and does not bind the journaled intent. */
  predicate Unbound(j: Journal, r: Registry) {
    r.NoBinding? || (r.Bound? && HasSubmission(j) && r.intent != j.submission.intent)
  }

  /** An iteration past the cutoff acts on a reading from before Submitted, stale or not, or finds no binding. */
  predicate WorkerMisses(f: Files, snapshot: Journal, p: Poll)
    requires IsOpen(f)
  {
    PastCutoff(f.journal.value.context, p) && (snapshot.Submitted? ==> Unbound(f.journal.value, p.registry))
  }

  /** The operation's last write is made. */
  predicate Uncut(t: Trace, cut: Option<nat>) {
    cut.None? || |t.wal| <= cut.value
  }

  /** An operator marks the open upgrade missed. */
  predicate MarkedMissed(s: Sys, e: Event) {
    && e.Operated? && e.op.MarkMissed? && e.cut != Some(0)
    && IsOpen(s.files) && s.files.journal.value.context.activation <= e.op.height
  }

  predicate Misses(s: Sys, e: Event) {
    || MarkedMissed(s, e)
    || (e.Iterated? && s.worker.Some? && IsOpen(s.files) && WorkerMisses(s.files, s.worker.value, e.poll)
        && Uncut(Act(Begin(s.files), s.worker.value, e.poll).trace, e.cut))
  }

  // ----- runs -----

  /** The files are good, and what the worker read is behind what the journal says. */
  predicate RunOk(s: Sys) {
    SysOk(s) && (s.worker.Some? ==> Follows(s.worker, s.files.journal))
  }

  lemma RunOkStep(s: Sys, e: Event)
    requires RunOk(s)
    ensures RunOk(Step(s, e)) && Follows(s.files.journal, Step(s, e).files.journal)
  {
    hide SysOk, Follows, Operate, Act;
    StepKeeps(s, e);
    FollowsSelf(s.files.journal);
    if s.worker.Some? { FollowsTrans(s.worker, s.files.journal, Step(s, e).files.journal); }
  }

  lemma {:induction false} RunOkAfter(f: Files, events: seq<Event>)
    requires Fresh(f)
    ensures RunOk(After(f, events))
    decreases |events|
  {
    hide RunOk, Step;
    if events == [] {
      StartOk(f);
    } else {
      RunOkAfter(f, events[..|events| - 1]);
      RunOkStep(After(f, events[..|events| - 1]), events[|events| - 1]);
    }
  }

  lemma StartOk(f: Files)
    requires Fresh(f)
    ensures RunOk(After(f, []))
  {
    RunKeeps(f, []);
  }

  // ----- one iteration -----

  lemma CutoffWrites(t: Trace, height: nat)
    requires FilesOk(t.files) && IsOpen(t.files) && t.ok
    ensures var c := t.files.journal.value.context;
            CheckCutoff(t, c, height).trace ==
              if c.activation <= height then t.Do(SetJournal(MissedCutoff(c, height, c.activation))) else t
  {
    hide Sound;
  }

  lemma SubmittedBehind(snapshot: Journal, f: Files)
    requires IsOpen(f) && Follows(Some(snapshot), f.journal) && Holding(snapshot, f.journal)
    ensures snapshot.context == f.journal.value.context
    ensures !snapshot.Finalized? && !snapshot.Promoted? && !snapshot.MissedCutoff?
    ensures snapshot.Submitted? ==> f.journal.value.Submitted?
  {
  }

  /** The checks before the cutoff write no journal. */
  lemma AuthorizeWrites(t: Trace, r: Registry)
    requires NoJournal(t.wal)
    ensures NoJournal(Authorize(t, r).0.wal) && Authorize(t, r).0.base == t.base
  {
    hide Reconcile, StagedAuthorization;
    ReconcileWrites(t);
  }

  /** What becomes of a submitted upgrade before its cutoff is checked. */
  lemma FinalizeOutcome(f: Files, r: Registry)
    requires FilesOk(f) && f.journal.Some? && f.journal.value.Submitted?
    ensures var (t1, done) := FinalizeSubmitted(Begin(f), r);
            && (done.None? <==> Unbound(f.journal.value, r))
            && (done.None? ==> t1.ok && TraceOk(t1) && t1.files.journal == f.journal && NoJournal(t1.wal) &&
                               t1.base == f)
            && (done.Some? ==> !IsMissed(done.value.trace.files))
  {
    hide TraceOk, Reconcile, Authorize, Complete, FilesOk;
    var j := f.journal.value;
    BeginOk(f);
    SubmittedShape(f);
    FinalizeKeeps(Begin(f), r);
    ReconcileKeeps(Begin(f));
    ReconcileWrites(Begin(f));
    var committed := Reconcile(Begin(f));
    AuthorizeKeeps(committed, r);
    AuthorizeExact(committed, j, r);
    AuthorizeWrites(committed, r);
    var t1 := Authorize(committed, r).0;
    if r.Bound? && r.intent == j.submission.intent { BoundOutcome(t1, j, r); }
  }

  lemma BoundOutcome(t: Trace, j: Journal, r: Registry)
    requires TraceOk(t) && t.ok && t.files.journal == Some(j) && j.Submitted? &&
             t.files.manifest == j.context.predecessor && r.Bound?
    ensures var next := RecordFinalized(t.files.journal, r.height, r.hash);
            next.Some? ==> !IsMissed(
              Complete(t.Do(SetJournal(next.value)),
              Authorization(j.submission.intent, j.context.candidate)).trace.files)
  {
    hide TraceOk, Complete;
    var next := RecordFinalized(t.files.journal, r.height, r.hash);
    if next.Some? {
      FinalizedKeeps(t, r.height, r.hash);
      CompleteKeeps(t.Do(SetJournal(next.value)), next.value);
    }
  }

  /** All but the last write leave the journal, and the last one writes the miss. */
  predicate EndsMissed(t: Trace) {
    t.wal != [] && NoJournal(t.wal[..|t.wal| - 1]) && IsMissed(t.files)
  }

  lemma OneMore(t: Trace, j: Journal)
    requires t.ok && NoJournal(t.wal) && j.MissedCutoff?
    ensures EndsMissed(t.Do(SetJournal(j)))
  {
    assert t.Do(SetJournal(j)).wal[..|t.wal|] == t.wal;
  }

  lemma ActMisses(f: Files, snapshot: Journal, p: Poll)
    requires FilesOk(f) && IsOpen(f) && Holding(snapshot, f.journal) && Follows(Some(snapshot), f.journal)
    ensures var t := Act(Begin(f), snapshot, p).trace;
            if WorkerMisses(f, snapshot, p) then EndsMissed(t) else !IsMissed(t.files)
  {
    hide TraceOk, FinalizeSubmitted, CheckCutoff, FilesOk, EndsMissed, NoJournal;
    SubmittedBehind(snapshot, f);
    var c := snapshot.context;
    if p.status.Some? && SuccessorAgrees(p.status.value, c) {
      if snapshot.Submitted? {
        FinalizeOutcome(f, p.registry);
        var (t1, done) := FinalizeSubmitted(Begin(f), p.registry);
        if done.None? { CutoffOutcome(t1, p.status.value.height); }
      } else {
        BeginOk(f);
        NothingWritten(f);
        CutoffOutcome(Begin(f), p.status.value.height);
      }
    }
  }

  lemma NothingWritten(f: Files)
    ensures NoJournal(Begin(f).wal)
  {
  }

  lemma CutoffOutcome(t: Trace, height: nat)
    requires TraceOk(t) && t.ok && IsOpen(t.files) && NoJournal(t.wal)
    ensures var c := t.files.journal.value.context;
            var to := CheckCutoff(t, c, height).trace;
            if c.activation <= height then EndsMissed(to) else to == t
  {
    hide TraceOk, CheckCutoff, FilesOk, EndsMissed, NoJournal;
    NowOk(t);
    CutoffWrites(t, height);
    var c := t.files.journal.value.context;
    OneMore(t, MissedCutoff(c, height, c.activation));
  }

  // ----- one step -----

  /** A write that was missed at a crash point is missed in the end. */
  lemma MissedStays(from: Option<Journal>, to: Option<Journal>)
    requires Follows(from, to)
    ensures from.Some? && from.value.MissedCutoff? ==> to.Some? && to.value.MissedCutoff?
    ensures from.Some? && (from.value.Finalized? || from.value.Promoted?) ==> to.Some? && !to.value.MissedCutoff?
  {
  }

  lemma DurableMissed(t: Trace, cut: Option<nat>)
    requires TraceOk(t) && EndsMissed(t) && IsOpen(t.base)
    ensures IsMissed(Durable(t, cut)) <==> Uncut(t, cut)
  {
    if !Uncut(t, cut) {
      assert forall n :: 0 <= n < |t.wal| - 1 ==> t.wal[..|t.wal| - 1][n] == t.wal[n];
      UntilLast(t.base, t.wal, cut.value);
    } else if cut.Some? && cut.value == |t.wal| {
      assert t.wal[..cut.value] == t.wal;
    }
  }

  lemma IteratedMisses(s: Sys, p: Poll, cut: Option<nat>)
    requires RunOk(s) && s.worker.Some? && IsOpen(s.files)
    ensures IsMissed(Step(s, Iterated(p, cut)).files) <==> Misses(s, Iterated(p, cut))
  {
    hide TraceOk, Act, FilesOk, EndsMissed, WorkerMisses, Durable, Uncut, Follows;
    var snapshot := s.worker.value;
    BeginOk(s.files);
    NowOk(Begin(s.files));
    ActKeeps(Begin(s.files), snapshot, p);
    ActBase(Begin(s.files), snapshot, p);
    ActMisses(s.files, snapshot, p);
    var t := Act(Begin(s.files), snapshot, p).trace;
    if WorkerMisses(s.files, snapshot, p) {
      DurableMissed(t, cut);
    } else {
      DurableKeeps(t, cut);
      MissedStays(Durable(t, cut).journal, t.files.journal);
    }
  }

  lemma CheckpointMisses(f: Files, op: Operator)
    requires FilesOk(f) && IsOpen(f)
    ensures Checkpoint(f, op).Some? && Checkpoint(f, op).value.MissedCutoff? <==>
              op.MarkMissed? && f.journal.value.context.activation <= op.height
  {
    hide Sound;
  }

  lemma OperatedMisses(s: Sys, op: Operator, cut: Option<nat>)
    requires RunOk(s) && IsOpen(s.files)
    ensures IsMissed(Step(s, Operated(op, cut)).files) <==> MarkedMissed(s, Operated(op, cut))
  {
    hide TraceOk, FilesOk, Checkpoint, Stage, Reconcile, Follows;
    var t := Begin(s.files);
    BeginOk(s.files);
    OperatedCut(s.files, op, cut);
    if op.StageReplacement? || op.PersistSubmission? || op.PersistRelay? {
      StageKeeps(t, op);
    } else if ReadsFiles(op) {
      ReconcileKeeps(t);
      NowOk(Reconcile(t));
      CheckpointMisses(Reconcile(t).files, op);
    } else {
      CheckpointMisses(s.files, op);
    }
  }

  /** The journal after an operator's step that may be cut off; marking a miss is a single write. */
  lemma OperatedCut(f: Files, op: Operator, cut: Option<nat>)
    requires FilesOk(f)
    ensures var t := Operate(Begin(f), op);
            var d := Durable(t, cut);
            && (d.journal == f.journal || d.journal == t.files.journal)
            && (op.MarkMissed? ==> d == if cut == Some(0) then f else t.files)
  {
    hide TraceOk, FilesOk, Checkpoint, Stage, Reconcile;
    var t := Operate(Begin(f), op);
    OneJournalWrite(f, op);
    if cut.Some? && cut.value <= |t.wal| {
      OperatedJournal(f, op, cut.value);
      if op.MarkMissed? { MarkIsOneWrite(f, op, cut.value); }
    }
  }

  lemma MarkIsOneWrite(f: Files, op: Operator, k: nat)
    requires op.MarkMissed? && k <= |Operate(Begin(f), op).wal|
    ensures var t := Operate(Begin(f), op);
            ApplyAll(t.base, t.wal[..k]) == if k == 0 then f else t.files
  {
    hide Checkpoint;
    var t := Operate(Begin(f), op);
    assert t.wal[..0] == [];
    if k == 1 { assert t.wal[..1] == t.wal && t.wal[..0] == []; }
  }

  lemma StepMisses(s: Sys, e: Event)
    requires RunOk(s)
    ensures IsMissed(Step(s, e).files) <==> IsMissed(s.files) || Misses(s, e)
  {
    hide RunOk, Step, Act, WorkerMisses, Uncut, Follows, MarkedMissed;
    RunOkStep(s, e);
    MissedStays(s.files.journal, Step(s, e).files.journal);
    NotOpenCases(s, e);
    if IsOpen(s.files) {
      match e
      case Operated(op, cut) => OperatedMisses(s, op, cut);
      case Iterated(p, cut) => if s.worker.Some? { IteratedMisses(s, p, cut); }
      case Read =>
      case Restarted =>
    }
  }

  /** Without an open upgrade nothing is missed, and reading or restarting changes no file. */
  lemma NotOpenCases(s: Sys, e: Event)
    requires RunOk(s)
    ensures !IsOpen(s.files) ==> !Misses(s, e)
    ensures MarkedMissed(s, e) ==> e.Operated?
    ensures e.Read? || e.Restarted? || (e.Iterated? && s.worker.None?) ==> Step(s, e).files == s.files
    ensures s.files.journal.None? ==> !IsMissed(Step(s, e).files)
  {
    hide FilesOk, Act, Follows;
    if s.files.journal.None? && e.Operated? {
      OperatedCut(s.files, e.op, e.cut);
      NoJournalYet(s.files, e.op);
    }
  }

  lemma NoJournalYet(f: Files, op: Operator)
    requires FilesOk(f) && f.journal.None?
    ensures !IsMissed(Operate(Begin(f), op).files)
  {
    hide TraceOk, FilesOk, Stage, Reconcile;
    BeginOk(f);
    ReconcileKeeps(Begin(f));
    if op.StageReplacement? || op.PersistSubmission? || op.PersistRelay? { StageKeeps(Begin(f), op); }
  }

  // ----- the main theorems -----

  /** A run ends in a missed cutoff if and only if one of its events missed it. */
  lemma {:induction false} MissedExactlyWhen(f: Files, events: seq<Event>)
    requires Fresh(f)
    ensures IsMissed(After(f, events).files) <==>
              exists n :: 0 <= n < |events| && Misses(After(f, events[..n]), events[n])
    decreases |events|
  {
    hide Step, Misses, Fresh, RunOk;
    if events == [] {
      NothingMissed(f);
    } else {
      var rest := events[..|events| - 1];
      var last := |events| - 1;
      MissedExactlyWhen(f, rest);
      RunOkAfter(f, rest);
      StepMisses(After(f, rest), events[last]);
      forall n | 0 <= n < |rest|
        ensures Misses(After(f, rest[..n]), rest[n]) == Misses(After(f, events[..n]), events[n]) {
        assert rest[..n] == events[..n];
      }
      if Misses(After(f, rest), events[last]) {
        assert events[..last] == rest;
      }
      if exists n :: 0 <= n < |events| && Misses(After(f, events[..n]), events[n]) {
        var n :| 0 <= n < |events| && Misses(After(f, events[..n]), events[n]);
        if n < last { assert Misses(After(f, rest[..n]), rest[n]); } else { assert events[..n] == rest; }
      }
      if exists n :: 0 <= n < |rest| && Misses(After(f, rest[..n]), rest[n]) {
        var n :| 0 <= n < |rest| && Misses(After(f, rest[..n]), rest[n]);
        assert Misses(After(f, events[..n]), events[n]);
      }
    }
  }

  lemma NothingMissed(f: Files)
    requires Fresh(f)
    ensures !IsMissed(After(f, []).files)
  {
  }

  /** Whenever an iteration looks, the finalized registry binds the journaled intent. */
  predicate BoundThroughout(f: Files, events: seq<Event>) {
    forall n :: 0 <= n < |events| ==> BoundAt(After(f, events[..n]), events[n])
  }

  predicate BoundAt(s: Sys, e: Event) {
    e.Iterated? && s.files.journal.Some? && HasSubmission(s.files.journal.value) ==>
      e.poll.registry.Bound? && e.poll.registry.intent == s.files.journal.value.submission.intent
  }

  /** An iteration past the cutoff acts on a reading from before Submitted. */
  predicate ActsEarly(s: Sys, e: Event) {
    && e.Iterated? && s.worker.Some? && Rank(s.worker.value) < 4 && IsOpen(s.files)
    && PastCutoff(s.files.journal.value.context, e.poll) && e.cut != Some(0)
  }

  /**
   A bound upgrade is lost if and only if, past the cutoff, an iteration acts on a reading
   from before Submitted, whether the journal has moved on since or not, or an operator marks
   it missed. No other event of any run loses it.
   */
  lemma BoundIsMissedExactlyWhen(f: Files, events: seq<Event>)
    requires Fresh(f) && BoundThroughout(f, events)
    ensures IsMissed(After(f, events).files) <==>
              exists n :: 0 <= n < |events|
                          && (ActsEarly(After(f, events[..n]), events[n]) ||
                            MarkedMissed(After(f, events[..n]), events[n]))
  {
    hide Misses, Fresh, RunOk, ActsEarly, MarkedMissed, BoundAt;
    MissedExactlyWhen(f, events);
    forall n | 0 <= n < |events|
      ensures Misses(After(f, events[..n]), events[n]) <==>
                ActsEarly(After(f, events[..n]), events[n]) || MarkedMissed(After(f, events[..n]), events[n])
    {
      RunOkAfter(f, events[..n]);
      assert BoundAt(After(f, events[..n]), events[n]);
      BoundMisses(After(f, events[..n]), events[n]);
    }
  }

  lemma BoundMisses(s: Sys, e: Event)
    requires RunOk(s) && BoundAt(s, e)
    ensures Misses(s, e) <==> ActsEarly(s, e) || MarkedMissed(s, e)
  {
    hide Act, FilesOk, PastCutoff, Uncut;
    if e.Iterated? && s.worker.Some? && IsOpen(s.files) {
      SubmittedBehind(s.worker.value, s.files);
      if !s.worker.value.Submitted? && PastCutoff(s.files.journal.value.context, e.poll) {
        EarlyIsOneWrite(s.files, s.worker.value, e.poll, e.cut);
      }
    }
  }

  lemma EarlyIsOneWrite(f: Files, snapshot: Journal, p: Poll, cut: Option<nat>)
    requires FilesOk(f) && IsOpen(f) && snapshot.context == f.journal.value.context
    requires Rank(snapshot) < 4 && PastCutoff(snapshot.context, p)
    ensures Uncut(Act(Begin(f), snapshot, p).trace, cut) <==> cut != Some(0)
  {
    hide FilesOk, CheckCutoff;
    CutoffWrites(Begin(f), p.status.value.height);
  }

  // ----- the three ways it happens -----

  /** A reading that the operator's Submitted overtook. */
  lemma StaleReadMissesCutoff(f: Files, j: Journal, height: nat, p: Poll)
    requires FilesOk(f) && f.journal == Some(j) && j.SubmissionPrepared? && PastCutoff(j.context, p)
    requires p.registry.Bound? && p.registry.intent == j.submission.intent
    ensures var s := Step(Step(Step(Sys(f, None), Read), Operated(MarkSubmitted(height), None)), Iterated(p, None));
            IsMissed(s.files) && s.files.replaced == 0
  {
    hide Sound, Reconcile;
    assert Valid(j);
  }

  /** A fresh reading, where the operator died after it sent the transaction and before it journaled that. */
  lemma UnjournaledSubmissionMissesCutoff(f: Files, j: Journal, p: Poll)
    requires FilesOk(f) && f.journal == Some(j) && j.SubmissionPrepared? && PastCutoff(j.context, p)
    requires p.registry.Bound? && p.registry.intent == j.submission.intent
    ensures var s := Step(Step(Sys(f, None), Read), Iterated(p, None));
            IsMissed(s.files) && s.files.replaced == 0
  {
    hide Sound, Reconcile;
    assert Valid(j);
  }

  /** An operator marks even a submitted upgrade missed, bound or not. */
  lemma OperatorMissesCutoff(f: Files, j: Journal, height: nat)
    requires FilesOk(f) && f.journal == Some(j) && j.Submitted? && j.context.activation <= height
    ensures var s := Step(Sys(f, None), Operated(MarkMissed(height), None));
            IsMissed(s.files) && s.files.replaced == 0
  {
    hide Sound, Reconcile;
    assert Valid(j);
  }
}
