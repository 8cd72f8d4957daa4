/**
 The upgrade promotion worker and the operator's steps over whole runs, with a crash allowed
 between any two durable writes.
 */
module UpgradeRuns {
  import opened Basics
  import opened UpgradeJournal
  import opened UpgradeHost

  // ----- the invariant -----

  /** How the files hang together with the journal. */
  predicate Linked(f: Files, j: Journal) {
    var c := j.context;
    && Valid(j)
    && (!j.Finalized? && !j.Promoted? ==> f.manifest == c.predecessor && f.replaced == 0)
    && (j.Finalized? ==> if f.replaced == 0 then f.manifest == c.predecessor
      else f.manifest == c.candidate && f.replaced == 1)
    && (j.Promoted? ==> f.manifest == c.candidate && f.replaced == 1)
    && (HasKeys(j) && f.manifest == c.predecessor ==> Staged(f, j))
  }

  /** The journaled replacement is the one staged. */
  predicate Staged(f: Files, j: Journal)
    requires HasKeys(j)
  {
    && f.candidate == Some(Candidate(j.context.predecessor, j.context.candidate))
    && f.submission.Some? && f.submission.value.manifest == j.context.candidate
    && (HasSubmission(j) ==> f.submission.value.intent == j.submission.intent)
  }

  predicate FilesOk(f: Files) {
    && Sound(f)
    && (f.journal.None? ==> f.replaced == 0)
    && (f.journal.Some? ==> Linked(f, f.journal.value))
  }

  /** Every crash point of the operation leaves good files, and a journal on its way. */
  ghost predicate TraceOk(t: Trace) {
    && t.files == ApplyAll(t.base, t.wal)
    && forall k :: 0 <= k <= |t.wal| ==> CrashPointOk(t.base, ApplyAll(t.base, t.wal[..k]), t.files)
  }

  predicate CrashPointOk(base: Files, f: Files, now: Files) {
    FilesOk(f) && Follows(base.journal, f.journal) && Follows(f.journal, now.journal)
  }

  lemma BeginOk(f: Files)
    requires FilesOk(f)
    ensures TraceOk(Begin(f))
  {
    assert Begin(f).wal[..0] == [];
  }

  lemma DoOk(t: Trace, w: Write)
    requires TraceOk(t) && FilesOk(Apply(t.files, w))
    requires w.SetJournal? ==> Follows(t.files.journal, Some(w.journal))
    ensures TraceOk(t.Do(w))
  {
    hide FilesOk, Follows;
    NowOk(t);
    var to := Apply(t.files, w);
    FollowsSelf(t.files.journal);
    FollowsSelf(to.journal);
    FollowsTrans(t.base.journal, t.files.journal, to.journal);
    var ws := t.wal + [w];
    assert ws[..|t.wal|] == t.wal;
    assert ws[..|ws|] == ws;
    forall k | 0 <= k <= |ws| ensures CrashPointOk(t.base, ApplyAll(t.base, ws[..k]), to) {
      if k <= |t.wal| {
        assert ws[..k] == t.wal[..k];
        FollowsTrans(ApplyAll(t.base, t.wal[..k]).journal, t.files.journal, to.journal);
      }
    }
  }

  lemma FollowsSelf(j: Option<Journal>)
    ensures Follows(j, j)
  {
  }

  lemma FailOk(t: Trace)
    requires TraceOk(t)
    ensures TraceOk(t.Fail())
  {
  }

  lemma NowOk(t: Trace)
    requires TraceOk(t)
    ensures FilesOk(t.files) && Follows(t.base.journal, t.files.journal)
  {
    assert t.wal[..|t.wal|] == t.wal;
  }

  // ----- reconciliation -----

  /** The manifest has been replaced, and some of the staged files are still there. */
  predicate Promoting(f: Files) {
    && (f.candidate.None? ==> !f.relay && f.submission.None?)
    && (f.candidate.Some? ==> f.manifest == f.candidate.value.manifest && f.manifest != f.candidate.value.predecessor)
    && f.promotionNext.None? && f.next.None?
    && f.promotion.Some? && f.promotion.value.manifest == f.manifest
    && (f.submission.Some? ==> StagedAuthorization(f) == f.promotion)
    && (f.relay ==> f.submission.Some?)
  }

  lemma PromotingIsSound(f: Files)
    requires Promoting(f)
    ensures Sound(f)
  {
  }

  /** Changes that leave journal and manifest alone, and the staged replacement while it waits. */
  lemma StillOk(f: Files, to: Files)
    requires FilesOk(f) && Sound(to)
    requires to.journal == f.journal && to.manifest == f.manifest && to.replaced == f.replaced
    requires (to.candidate == f.candidate && to.submission == f.submission) || !Waiting(f)
    ensures FilesOk(to)
  {
    hide Sound;
  }

  lemma CleanupStep(t: Trace, w: Write)
    requires TraceOk(t) && Promoting(t.files) && Promoting(Apply(t.files, w)) && t.files.candidate.Some?
    requires w.DropRelay? || w.DropSubmission? || w.DropCandidate?
    ensures TraceOk(t.Do(w))
  {
    hide TraceOk, FilesOk, Sound, StagedAuthorization;
    NowOk(t);
    PromotingIsSound(Apply(t.files, w));
    StillOk(t.files, Apply(t.files, w));
    DoOk(t, w);
  }

  lemma CleanupKeeps(t: Trace)
    requires TraceOk(t) && t.ok && Promoting(t.files) && t.files.candidate.Some?
    ensures var r := t.Do(DropRelay).Do(DropSubmission).Do(DropCandidate);
            && r.ok && TraceOk(r)
            && r.files == t.files.(candidate := None, submission := None, relay := false)
  {
    hide TraceOk;
    CleanupStep(t, DropRelay);
    CleanupStep(t.Do(DropRelay), DropSubmission);
    CleanupStep(t.Do(DropRelay).Do(DropSubmission), DropCandidate);
  }

  /** The staged replacement still waits to be promoted. */
  predicate Waiting(f: Files) {
    f.candidate.Some? && f.candidate.value.predecessor == f.manifest
  }

  /** What reconciliation leaves alone, and what it leaves behind. */
  predicate Reconciled(f: Files, to: Files) {
    && to.journal == f.journal && to.manifest == f.manifest && to.replaced == f.replaced
    && to.promotionNext.None?
    && (Waiting(f) ==> to.candidate == f.candidate && to.submission == f.submission && to.relay == f.relay &&
                       to.next == f.next)
    && (!Waiting(f) ==> to.candidate.None? && to.submission.None? && !to.relay && to.next.None?)
    && to.promotion == (if f.promotionNext.Some? then f.promotionNext else f.promotion)
  }

  lemma FinishReceiptKeeps(t: Trace)
    requires TraceOk(t) && t.ok
    ensures var r := FinishReceipt(t);
            && r.ok && TraceOk(r) && r.files == t.files.(promotion := r.files.promotion, promotionNext := None)
            && r.files.promotion == (if t.files.promotionNext.Some? then t.files.promotionNext else t.files.promotion)
  {
    hide TraceOk;
    NowOk(t);
    if t.files.promotionNext.Some? { DoOk(t, CommitPromotion); }
  }

  /** Good files whose replacement was promoted are being cleaned up; the next manifest is gone by then. */
  lemma PromotedShape(f: Files)
    requires FilesOk(f) && f.candidate.Some? && !Waiting(f) && f.promotionNext.None?
    ensures f.next.Some? ==> f.next.value == f.manifest
    ensures Promoting(f.(next := None))
  {
    hide Linked;
  }

  lemma FinishPromotionKeeps(t: Trace)
    requires TraceOk(t) && t.ok && t.files.candidate.Some? && !Waiting(t.files) && t.files.promotionNext.None?
    ensures var r := FinishPromotion(t);
            r.ok && TraceOk(r) && r.files ==
              t.files.(candidate := None, submission := None, relay := false, next := None)
  {
    hide TraceOk, FilesOk, Sound;
    NowOk(t);
    PromotedShape(t.files);
    var t1 := if t.files.next.Some? then t.Do(DropNext) else t;
    if t.files.next.Some? {
      PromotingIsSound(t1.files);
      StillOk(t.files, t1.files);
      DoOk(t, DropNext);
    }
    CleanupKeeps(t1);
  }

  lemma DropResidueKeeps(t: Trace)
    requires TraceOk(t) && t.ok && t.files.candidate.None? && t.files.promotionNext.None?
    ensures var r := ReconcileWithoutCandidate(t);
            r.ok && TraceOk(r) && r.files == t.files.(submission := None) && !t.files.relay && t.files.next.None?
  {
    hide TraceOk;
    NowOk(t);
    if t.files.submission.Some? { DoOk(t, DropSubmission); }
  }

  /** On good files reconciliation succeeds, at every crash point too. */
  lemma ReconcileKeeps(t: Trace)
    requires TraceOk(t) && t.ok
    ensures Reconcile(t).ok && TraceOk(Reconcile(t)) && Reconciled(t.files, Reconcile(t).files)
  {
    hide TraceOk, FilesOk, FinishPromotion, FinishReceipt, ReconcileWithoutCandidate;
    FinishReceiptKeeps(t);
    var r := FinishReceipt(t);
    NowOk(r);
    if r.files.candidate.None? {
      DropResidueKeeps(r);
    } else {
      SettledShape(r.files);
      if !Waiting(r.files) { FinishPromotionKeeps(r); }
    }
  }

  lemma SettledShape(f: Files)
    requires FilesOk(f) && f.promotionNext.None? && f.candidate.Some?
    ensures f.submission.Some? ==> StagedAuthorization(f).Some?
    ensures f.relay ==> f.submission.Some?
    ensures Waiting(f) ==> BeforePromotion(f)
    ensures !Waiting(f) ==> f.manifest == f.candidate.value.manifest
  {
  }

  // ----- promotion -----

  /** The receipt is durable before the manifest is touched. */
  lemma ReceiptKeeps(t: Trace, a: Authorization)
    requires TraceOk(t) && t.ok && Waiting(t.files) && StagedAuthorization(t.files) == Some(a) &&
             t.files.promotionNext.None?
    ensures var r := t.Do(DropPromotionNext).Do(StagePromotion(a)).Do(CommitPromotion);
            r.ok && TraceOk(r) && r.files == t.files.(promotion := Some(a))
  {
    hide TraceOk, Linked;
    NowOk(t);
    DoOk(t, DropPromotionNext);
    var t1 := t.Do(DropPromotionNext);
    StillOk(t1.files, Apply(t1.files, StagePromotion(a)));
    DoOk(t1, StagePromotion(a));
    var t2 := t1.Do(StagePromotion(a));
    StillOk(t2.files, Apply(t2.files, CommitPromotion));
    DoOk(t2, CommitPromotion);
  }

  /** The next manifest is staged, then renamed over the committed one. */
  lemma CommitKeeps(t: Trace, j: Journal)
    requires TraceOk(t) && t.ok && t.files.journal == Some(j) && j.Finalized? &&
             t.files.manifest == j.context.predecessor
    requires t.files.promotionNext.None? &&
             t.files.promotion == Some(Authorization(j.submission.intent, j.context.candidate))
    ensures var staged := if t.files.next.None? then t.Do(StageNext(j.context.candidate)) else t;
            var r := staged.Do(CommitManifest);
            && r.ok && TraceOk(r) && Promoting(r.files)
            && r.files == t.files.(manifest := j.context.candidate, replaced := 1, next := None)
  {
    hide TraceOk;
    NowOk(t);
    NextIsCandidate(t.files, j);
    var staged := if t.files.next.None? then t.Do(StageNext(j.context.candidate)) else t;
    if t.files.next.None? { DoOk(t, StageNext(j.context.candidate)); }
    PromotingIsSound(Apply(staged.files, CommitManifest));
    DoOk(staged, CommitManifest);
  }

  /** Replacing the manifest: every write keeps the files good. */
  lemma ReplaceKeeps(t: Trace, j: Journal)
    requires TraceOk(t) && t.ok && t.files.journal == Some(j) && j.Finalized? &&
             t.files.manifest == j.context.predecessor
    requires t.files.promotionNext.None?
    ensures var r := ReplaceManifest(t, Authorization(j.submission.intent, j.context.candidate));
            && r.ok && TraceOk(r)
            && r.files == t.files.(manifest := j.context.candidate, replaced := 1, candidate := None,
              submission := None, relay := false,
                                   next := None, promotion :=
                                     Some(Authorization(j.submission.intent, j.context.candidate)))
  {
    hide TraceOk, FilesOk, Promoting;
    NowOk(t);
    NextIsCandidate(t.files, j);
    var a := Authorization(j.submission.intent, j.context.candidate);
    ReceiptKeeps(t, a);
    var t3 := t.Do(DropPromotionNext).Do(StagePromotion(a)).Do(CommitPromotion);
    CommitKeeps(t3, j);
    var t4 := if t.files.next.None? then t3.Do(StageNext(a.manifest)) else t3;
    CleanupKeeps(t4.Do(CommitManifest));
  }

  lemma PromoteKeeps(t: Trace, j: Journal)
    requires TraceOk(t) && t.ok && t.files.journal == Some(j) && j.Finalized? &&
             t.files.manifest == j.context.predecessor
    ensures var r := Promote(t, Authorization(j.submission.intent, j.context.candidate));
            && r.ok && TraceOk(r) && r.files.journal == Some(j)
            && r.files.manifest == j.context.candidate && r.files.replaced == 1
  {
    hide TraceOk, Reconcile, ReplaceManifest, Sound;
    NowOk(t);
    ReconcileKeeps(t);
    var r := Reconcile(t);
    NowOk(r);
    NextIsCandidate(r.files, j);
    ReplaceKeeps(r, j);
  }

  lemma NextIsCandidate(f: Files, j: Journal)
    requires FilesOk(f) && f.journal == Some(j) && j.Finalized? && f.manifest == j.context.predecessor &&
             f.promotionNext.None?
    ensures Staged(f, j) && (f.next.Some? ==> f.next.value == j.context.candidate)
  {
  }

  // ----- the worker -----

  datatype StagedPolicy = StagedPolicy(policy: Hash, activation: nat)

  datatype Status = Status(height: nat, staged: Option<StagedPolicy>)

  /** What one iteration reads of the node's finalized state. */
  datatype Poll = Poll(status: Option<Status>, registry: Registry)

  /** Poll again, return, or return asking for a restart on the new enclave. */
  datatype Ending = Again | Returned | RestartRequired

  datatype Iteration = Iteration(trace: Trace, ending: Ending)

  function Journaling(t: Trace, j: Option<Journal>): Trace {
    if j.None? then t.Fail() else t.Do(SetJournal(j.value))
  }

  function Complete(t: Trace, a: Authorization): Iteration {
    var p := Promote(t, a);
    if !p.ok then Iteration(p, Returned)
    else
      var r := Journaling(p, RecordPromoted(p.files.journal));
      Iteration(r, if r.ok then RestartRequired else Returned)
  }

  /** The journal says Finalized: a crash came before the promotion was journaled. */
  function Recover(t: Trace, c: Context, registry: Registry): Iteration {
    var committed := Reconcile(t);
    if !committed.ok then Iteration(committed, Returned)
    else if committed.files.manifest == c.candidate then
      Iteration(Journaling(committed, RecordPromoted(committed.files.journal)), Returned)
    else
      var (t1, authorized) := Authorize(committed, registry);
      if authorized.Authorized? then Complete(t1, authorized.authorization) else Iteration(t1, Returned)
  }

  /** The journal says Submitted: promote if the finalized registry binds the candidate; `None` goes on to the
      cutoff. */
  function FinalizeSubmitted(t: Trace, registry: Registry): (Trace, Option<Iteration>) {
    var committed := Reconcile(t);
    if !committed.ok then (committed, Some(Iteration(committed, Returned)))
    else
      var (t1, authorized) := Authorize(committed, registry);
      match authorized
      case BindingMissing => (t1, None)
      case AuthorizationFailed => (t1, Some(Iteration(t1, Returned)))
      case Authorized(a, height, hash) =>
        var r := Journaling(t1, RecordFinalized(t1.files.journal, height, hash));
        (r, Some(if r.ok then Complete(r, a) else Iteration(r, Returned)))
  }

  function CheckCutoff(t: Trace, c: Context, height: nat): Iteration {
    if c.activation <= height then
      Iteration(Journaling(t, RecordMissed(t.files.journal, height, c.activation)), Returned)
    else Iteration(t, Again)
  }

  predicate SuccessorAgrees(s: Status, c: Context) {
    s.staged.Some? ==> s.staged.value.policy == c.policy && s.staged.value.activation == c.activation
  }

  /** One iteration of `run_upgrade_promotion_worker_v1`, from the journal snapshot it read. */
  function Act(t: Trace, snapshot: Journal, p: Poll): Iteration {
    var c := snapshot.context;
    if snapshot.Promoted? || snapshot.MissedCutoff? then Iteration(t, Returned)
    else if snapshot.Finalized? then Recover(t, c, p.registry)
    else if p.status.None? then Iteration(t, Again)
    else if !SuccessorAgrees(p.status.value, c) then Iteration(t, Returned)
    else if snapshot.Submitted? then
      var (t1, done) := FinalizeSubmitted(t, p.registry);
      if done.Some? then done.value else CheckCutoff(t1, c, p.status.value.height)
    else CheckCutoff(t, c, p.status.value.height)
  }

  // ----- the worker keeps the invariant -----

  /** The snapshot the worker holds: only the worker itself moves a finalized journal. */
  predicate Holding(snapshot: Journal, journal: Option<Journal>) {
    && journal.Some? && journal.value.context == snapshot.context
    && (snapshot.Finalized? || snapshot.Promoted? || journal.value.Finalized? || journal.value.Promoted? ==>
      journal.value == snapshot)
  }

  lemma CompleteKeeps(t: Trace, j: Journal)
    requires TraceOk(t) && t.ok && t.files.journal == Some(j) && j.Finalized? &&
             t.files.manifest == j.context.predecessor
    ensures var i := Complete(t, Authorization(j.submission.intent, j.context.candidate));
            && TraceOk(i.trace) && i.ending == RestartRequired
            && i.trace.files.journal.Some? && i.trace.files.journal.value.Promoted?
            && i.trace.files.manifest == j.context.candidate
  {
    hide TraceOk, Promote, Sound;
    NowOk(t);
    PromoteKeeps(t, j);
    RecordPromotedKeeps(Promote(t, Authorization(j.submission.intent, j.context.candidate)), j);
  }

  lemma RecordPromotedKeeps(t: Trace, j: Journal)
    requires TraceOk(t) && t.ok && t.files.journal == Some(j) && j.Finalized? && t.files.manifest == j.context.candidate
    ensures var r := Journaling(t, RecordPromoted(t.files.journal));
            && r.ok && TraceOk(r) && r.files.journal.Some? && r.files.journal.value.Promoted?
            && r.files.manifest == j.context.candidate
  {
    hide TraceOk;
    NowOk(t);
    var next := RecordPromoted(t.files.journal);
    DoOk(t, SetJournal(next.value));
  }

  lemma StagedNow(f: Files, j: Journal)
    requires FilesOk(f) && f.journal == Some(j) && HasKeys(j) && f.manifest == j.context.predecessor
    ensures Staged(f, j) && Waiting(f)
  {
    hide Sound, Valid;
  }

  /** Authorizing changes nothing but what reconciliation does. */
  lemma AuthorizeKeeps(t: Trace, registry: Registry)
    requires TraceOk(t) && t.ok
    ensures var r := Authorize(t, registry).0;
            && r.ok && TraceOk(r) && r.files.journal == t.files.journal && r.files.manifest == t.files.manifest
  {
    hide TraceOk, Reconcile, FilesOk;
    ReconcileKeeps(t);
  }

  /** It authorizes exactly the journaled replacement, exactly when the registry binds its intent. */
  lemma AuthorizeExact(t: Trace, j: Journal, registry: Registry)
    requires TraceOk(t) && t.ok && t.files.journal == Some(j) && HasSubmission(j) &&
             t.files.manifest == j.context.predecessor
    ensures Authorize(t, registry).1 ==
              if registry.Unreadable? then AuthorizationFailed
              else if registry.Bound? && registry.intent == j.submission.intent then
                Authorized(Authorization(j.submission.intent, j.context.candidate), registry.height, registry.hash)
              else BindingMissing
  {
    hide TraceOk, Reconcile, FilesOk;
    NowOk(t);
    StagedNow(t.files, j);
    ReconcileKeeps(t);
  }

  lemma FinalizedShape(f: Files, j: Journal)
    requires FilesOk(f) && f.journal == Some(j) && j.Finalized?
    ensures f.manifest == j.context.predecessor || f.manifest == j.context.candidate
    ensures j.context.predecessor != j.context.candidate
  {
    hide Sound;
  }

  lemma RecoverKeeps(t: Trace, j: Journal, registry: Registry)
    requires TraceOk(t) && t.ok && t.files.journal == Some(j) && j.Finalized?
    ensures var i := Recover(t, j.context, registry);
            && TraceOk(i.trace)
            && (i.trace.files.journal.Some? && i.trace.files.journal.value.Promoted? <==>
                  t.files.manifest == j.context.candidate ||
                  (registry.Bound? && registry.intent == j.submission.intent))
  {
    hide TraceOk, Reconcile, Authorize, Complete, FilesOk, Journaling;
    NowOk(t);
    ReconcileKeeps(t);
    var committed := Reconcile(t);
    NowOk(committed);
    FinalizedShape(committed.files, j);
    if committed.files.manifest == j.context.candidate {
      RecordPromotedKeeps(committed, j);
    } else {
      AuthorizeKeeps(committed, registry);
      AuthorizeExact(committed, j, registry);
      var (t1, authorized) := Authorize(committed, registry);
      if authorized.Authorized? { CompleteKeeps(t1, j); }
    }
  }

  /** An upgrade journaled Submitted: what the finalized registry says decides. */
  lemma FinalizeKeeps(t: Trace, registry: Registry)
    requires TraceOk(t) && t.ok && t.files.journal.Some? && !t.files.journal.value.Finalized? &&
             !t.files.journal.value.Promoted?
    ensures var (t1, done) := FinalizeSubmitted(t, registry);
            && (done.None? ==> TraceOk(t1) && t1.ok && t1.files.journal == t.files.journal)
            && (done.Some? ==> TraceOk(done.value.trace))
  {
    hide TraceOk, Reconcile, Authorize, Complete, FilesOk;
    ReconcileKeeps(t);
    var committed := Reconcile(t);
    AuthorizeKeeps(committed, registry);
    var (t1, authorized) := Authorize(committed, registry);
    if authorized.Authorized? {
      FailOk(t1);
      var next := RecordFinalized(t1.files.journal, authorized.height, authorized.hash);
      if next.Some? {
        FinalizedKeeps(t1, authorized.height, authorized.hash);
        NowOk(t1);
        SubmittedShape(t1.files);
        AuthorizeExact(committed, committed.files.journal.value, registry);
        CompleteKeeps(t1.Do(SetJournal(next.value)), next.value);
      }
    }
  }

  lemma SubmittedShape(f: Files)
    requires FilesOk(f) && f.journal.Some? && f.journal.value.Submitted?
    ensures f.manifest == f.journal.value.context.predecessor
  {
    hide Sound;
  }

  lemma FinalizedKeeps(t: Trace, height: nat, hash: Hash)
    requires TraceOk(t) && t.ok && RecordFinalized(t.files.journal, height, hash).Some?
    ensures TraceOk(t.Do(SetJournal(RecordFinalized(t.files.journal, height, hash).value)))
  {
    hide TraceOk;
    NowOk(t);
    DoOk(t, SetJournal(RecordFinalized(t.files.journal, height, hash).value));
  }

  lemma MissedKeeps(t: Trace, height: nat, activation: nat)
    requires TraceOk(t) && t.ok && RecordMissed(t.files.journal, height, activation).Some?
    ensures TraceOk(t.Do(SetJournal(RecordMissed(t.files.journal, height, activation).value)))
  {
    hide TraceOk;
    NowOk(t);
    DoOk(t, SetJournal(RecordMissed(t.files.journal, height, activation).value));
  }

  lemma CutoffKeeps(t: Trace, c: Context, height: nat)
    requires TraceOk(t) && t.ok
    ensures TraceOk(CheckCutoff(t, c, height).trace)
  {
    hide TraceOk, RecordMissed;
    FailOk(t);
    if c.activation <= height && RecordMissed(t.files.journal, height, c.activation).Some? {
      MissedKeeps(t, height, c.activation);
    }
  }

  /** One worker iteration keeps the files good at every crash point. */
  lemma ActKeeps(t: Trace, snapshot: Journal, p: Poll)
    requires TraceOk(t) && t.ok && Holding(snapshot, t.files.journal)
    ensures TraceOk(Act(t, snapshot, p).trace)
  {
    hide TraceOk, Recover, FinalizeSubmitted, CheckCutoff;
    if snapshot.Finalized? {
      RecoverKeeps(t, snapshot, p.registry);
    } else if !snapshot.Promoted? && !snapshot.MissedCutoff? && p.status.Some? &&
    SuccessorAgrees(p.status.value, snapshot.context) {
      CutoffKeeps(t, snapshot.context, p.status.value.height);
      if snapshot.Submitted? {
        FinalizeKeeps(t, p.registry);
        var (t1, done) := FinalizeSubmitted(t, p.registry);
        if done.None? { CutoffKeeps(t1, snapshot.context, p.status.value.height); }
      }
    }
  }

  // ----- the operator -----

  datatype Operator =
    | StageReplacement(manifest: Hash)
    | PersistSubmission(intent: Hash)
    | PersistRelay
    | PrepareUpgrade(policy: Hash, activation: nat)
    | CopyRoot(root: Hash)
    | ProveKeyReady(offer: Hash, proof: Hash)
    | PrepareRelay(transactions: seq<Hash>)
    | MarkSubmitted(height: nat)
    | MarkMissed(height: nat)

  /** The staging half of the operator's steps. */
  function Stage(t: Trace, op: Operator): Trace {
    var t1 :- Reconcile(t);
    var f := t1.files;
    match op
    case StageReplacement(m) =>
      if f.submission.Some? || m == f.manifest then t1.Fail() else t1.Do(StageCandidate(Candidate(f.manifest, m)))
    case PersistSubmission(intent) =>
      if f.candidate.None? then t1.Fail()
      else if f.submission.Some? then (if f.submission.value.intent == intent then t1 else t1.Fail())
      else t1.Do(StageSubmission(Submission(intent, f.candidate.value.manifest)))
    case _ =>
      if f.submission.None? then t1.Fail() else if f.relay then t1 else t1.Do(StageRelay)
  }

  /** The checkpoint an operator's step journals, from reconciled files; `None` is a refusal. */
  function Checkpoint(f: Files, op: Operator): Option<Journal> {
    match op
    case PrepareUpgrade(policy, activation) =>
      if f.journal.Some? || f.candidate.None? then None
      else Store(None, CandidatePrepared(Context(f.manifest, f.candidate.value.manifest, policy, activation)))
    case CopyRoot(root) =>
      if f.journal.None? || !f.journal.value.CandidatePrepared? then None
      else Store(f.journal, RootCopied(f.journal.value.context, root))
    case ProveKeyReady(offer, proof) =>
      if f.journal.None? || !f.journal.value.RootCopied? || f.submission.None?
         || f.submission.value.manifest != f.journal.value.context.candidate then None
      else Store(f.journal, CandidateKeyReady(f.journal.value.context, KeyReady(f.journal.value.root, offer, proof)))
    case PrepareRelay(transactions) =>
      if f.journal.None? || !f.journal.value.CandidateKeyReady? || f.submission.None? then None
      else Store(f.journal, SubmissionPrepared(f.journal.value.context, f.journal.value.keys,
        Prepared(f.submission.value.intent, transactions)))
    case MarkSubmitted(height) =>
      if f.journal.None? || !f.journal.value.SubmissionPrepared? then None
      else Store(f.journal, Submitted(f.journal.value.context, f.journal.value.keys, f.journal.value.submission,
        height))
    case MarkMissed(height) =>
      if f.journal.None? then None else RecordMissed(f.journal, height, f.journal.value.context.activation)
    case _ => None
  }

  function Operate(t: Trace, op: Operator): Trace {
    if op.StageReplacement? || op.PersistSubmission? || op.PersistRelay? then Stage(t, op)
    else
      var t1 :- if ReadsFiles(op) then Reconcile(t) else t;
      Journaling(t1, Checkpoint(t1.files, op))
  }

  predicate ReadsFiles(op: Operator) {
    op.PrepareUpgrade? || op.ProveKeyReady? || op.PrepareRelay?
  }

  /** Reconciled files with the staged replacement waiting, or with none. */
  lemma StageKeeps(t: Trace, op: Operator)
    requires TraceOk(t) && t.ok && (op.StageReplacement? || op.PersistSubmission? || op.PersistRelay?)
    ensures TraceOk(Stage(t, op)) && Stage(t, op).files.journal == t.files.journal
  {
    hide TraceOk, Reconcile, FilesOk;
    ReconcileKeeps(t);
    var r := Reconcile(t);
    NowOk(r);
    FailOk(r);
    var f := r.files;
    if op.StageReplacement? && f.submission.None? && op.manifest != f.manifest {
      StageReplacementOk(f, op.manifest);
      DoOk(r, StageCandidate(Candidate(f.manifest, op.manifest)));
    } else if op.PersistSubmission? && f.candidate.Some? && f.submission.None? {
      StageSubmissionOk(f, op.intent);
      DoOk(r, StageSubmission(Submission(op.intent, f.candidate.value.manifest)));
    } else if op.PersistRelay? && f.submission.Some? && !f.relay {
      StageRelayOk(f);
      DoOk(r, StageRelay);
    }
  }

  lemma StageReplacementOk(f: Files, m: Hash)
    requires FilesOk(f) && f.promotionNext.None? && f.submission.None? && m != f.manifest &&
             (f.candidate.Some? ==> Waiting(f))
    ensures FilesOk(Apply(f, StageCandidate(Candidate(f.manifest, m))))
  {
  }

  lemma StageSubmissionOk(f: Files, intent: Hash)
    requires FilesOk(f) && f.promotionNext.None? && f.submission.None? && Waiting(f)
    ensures FilesOk(Apply(f, StageSubmission(Submission(intent, f.candidate.value.manifest))))
  {
  }

  lemma StageRelayOk(f: Files)
    requires FilesOk(f) && f.promotionNext.None? && f.submission.Some? && Waiting(f)
    ensures FilesOk(Apply(f, StageRelay))
  {
  }

  /** What a checkpoint may be journaled over. */
  lemma CheckpointOk(f: Files, op: Operator)
    requires FilesOk(f) && Checkpoint(f, op).Some?
    requires ReadsFiles(op) ==> f.promotionNext.None? && (if f.candidate.Some? then Waiting(f) else f.submission.None?)
    ensures FilesOk(Apply(f, SetJournal(Checkpoint(f, op).value)))
    ensures Follows(f.journal, Checkpoint(f, op))
    ensures !Checkpoint(f, op).value.Finalized? && !Checkpoint(f, op).value.Promoted?
    ensures f.journal.Some? ==> !f.journal.value.Finalized? && !f.journal.value.Promoted?
  {
    if ReadsFiles(op) && f.submission.Some? { SubmissionShape(f); }
    SoundIgnoresJournal(f, Checkpoint(f, op).value);
    hide Sound;
  }

  lemma SubmissionShape(f: Files)
    requires FilesOk(f) && f.promotionNext.None? && Waiting(f) && f.submission.Some?
    ensures f.submission.value.manifest == f.candidate.value.manifest
  {
  }

  lemma SoundIgnoresJournal(f: Files, j: Journal)
    requires Sound(f)
    ensures Sound(Apply(f, SetJournal(j)))
  {
  }

  lemma OperateKeeps(t: Trace, op: Operator)
    requires TraceOk(t) && t.ok
    ensures TraceOk(Operate(t, op))
    ensures var j := t.files.journal;
            var to := Operate(t, op).files.journal;
            to == j || (to.Some? && !to.value.Finalized? && !to.value.Promoted?
                        && (j.Some? ==> !j.value.Finalized? && !j.value.Promoted? &&
                                        to.value.context == j.value.context))
  {
    hide TraceOk, Reconcile, FilesOk, Checkpoint, Stage, Follows;
    if op.StageReplacement? || op.PersistSubmission? || op.PersistRelay? {
      StageKeeps(t, op);
    } else {
      if ReadsFiles(op) { ReconcileKeeps(t); }
      var t1 := if ReadsFiles(op) then Reconcile(t) else t;
      NowOk(t1);
      FailOk(t1);
      if Checkpoint(t1.files, op).Some? {
        CheckpointOk(t1.files, op);
        DoOk(t1, SetJournal(Checkpoint(t1.files, op).value));
        FollowsContext(t1.files.journal, Checkpoint(t1.files, op));
      }
    }
  }

  lemma FollowsContext(from: Option<Journal>, to: Option<Journal>)
    requires Follows(from, to)
    ensures from.Some? ==> to.Some? && to.value.context == from.value.context
  {
  }

  // ----- runs -----

  /**
   What can happen: an operator's step or the rest of a worker iteration, each cut off after
   any number of its durable writes; the worker reading the journal; the node restarting.
   */
  datatype Event =
    | Operated(op: Operator, cut: Option<nat>)
    | Read
    | Iterated(poll: Poll, cut: Option<nat>)
    | Restarted

  datatype Sys = Sys(files: Files, worker: Option<Journal>)

  /** What is durable when an operation is cut off. */
  function Durable(t: Trace, cut: Option<nat>): Files {
    if cut.Some? && cut.value <= |t.wal| then ApplyAll(t.base, t.wal[..cut.value]) else t.files
  }

  function Step(s: Sys, e: Event): Sys {
    match e
    case Operated(op, cut) => s.(files := Durable(Operate(Begin(s.files), op), cut))
    case Read => s.(worker := s.files.journal)
    case Iterated(poll, cut) =>
      if s.worker.None? then s else Sys(Durable(Act(Begin(s.files), s.worker.value, poll).trace, cut), None)
    case Restarted => s.(worker := None)
  }

  function After(files: Files, events: seq<Event>): Sys {
    if events == [] then Sys(files, None) else Step(After(files, events[..|events| - 1]), events[|events| - 1])
  }

  predicate SysOk(s: Sys) {
    FilesOk(s.files) && (s.worker.Some? ==> Holding(s.worker.value, s.files.journal))
  }

  lemma DurableKeeps(t: Trace, cut: Option<nat>)
    requires TraceOk(t)
    ensures CrashPointOk(t.base, Durable(t, cut), t.files)
  {
    NowOk(t);
    FollowsSelf(t.files.journal);
  }

  /** The journal at a crash point is the old one or the operator's new one. */
  lemma {:induction false} OperatedJournal(f: Files, op: Operator, k: nat)
    requires FilesOk(f) && k <= |Operate(Begin(f), op).wal|
    ensures var t := Operate(Begin(f), op);
            ApplyAll(t.base, t.wal[..k]).journal == f.journal || ApplyAll(t.base, t.wal[..k]).journal == t.files.journal
  {
    hide TraceOk, Operate, FilesOk;
    BeginOk(f);
    OperateKeeps(Begin(f), op);
    OneJournalWrite(f, op);
    TraceFiles(Operate(Begin(f), op));
    LastWriteJournal(f, Operate(Begin(f), op).wal, k);
  }

  lemma TraceFiles(t: Trace)
    requires TraceOk(t)
    ensures t.files == ApplyAll(t.base, t.wal)
  {
  }

  predicate NoJournal(ws: seq<Write>) {
    forall k :: 0 <= k < |ws| ==> !ws[k].SetJournal?
  }

  lemma ReconcileWrites(t: Trace)
    requires NoJournal(t.wal)
    ensures Reconcile(t).base == t.base && NoJournal(Reconcile(t).wal)
  {
    hide StagedAuthorization, BeforePromotion, FinishPromotion, ReconcileWithoutCandidate;
    var t1 := FinishReceipt(t);
    if t1.files.candidate.Some? { FinishPromotionWrites(t1); } else { WithoutCandidateWrites(t1); }
  }

  lemma FinishPromotionWrites(t: Trace)
    requires NoJournal(t.wal) && t.files.candidate.Some?
    ensures FinishPromotion(t).base == t.base && NoJournal(FinishPromotion(t).wal)
  {
  }

  lemma WithoutCandidateWrites(t: Trace)
    requires NoJournal(t.wal)
    ensures ReconcileWithoutCandidate(t).base == t.base && NoJournal(ReconcileWithoutCandidate(t).wal)
  {
  }

  /** Only the last write of an operator's step touches the journal. */
  lemma OneJournalWrite(f: Files, op: Operator)
    ensures var t := Operate(Begin(f), op);
            t.base == f && forall k :: 0 <= k < |t.wal| - 1 ==> !t.wal[k].SetJournal?
  {
    hide Reconcile, Checkpoint;
    ReconcileWrites(Begin(f));
  }

  lemma {:induction false} LastWriteJournal(f: Files, ws: seq<Write>, k: nat)
    requires k <= |ws| && forall n :: 0 <= n < |ws| - 1 ==> !ws[n].SetJournal?
    ensures ApplyAll(f, ws[..k]).journal == f.journal || ApplyAll(f, ws[..k]).journal == ApplyAll(f, ws).journal
    decreases k
  {
    if k == |ws| { assert ws[..k] == ws; }
    else if k > 0 {
      UntilLast(f, ws, k);
    }
  }

  lemma {:induction false} UntilLast(f: Files, ws: seq<Write>, k: nat)
    requires k < |ws| && forall n :: 0 <= n < |ws| - 1 ==> !ws[n].SetJournal?
    ensures ApplyAll(f, ws[..k]).journal == f.journal
    decreases k
  {
    if k > 0 {
      UntilLast(f, ws, k - 1);
      assert ws[..k][..k - 1] == ws[..k - 1];
    }
  }

  lemma StepKeeps(s: Sys, e: Event)
    requires SysOk(s)
    ensures SysOk(Step(s, e)) && Follows(s.files.journal, Step(s, e).files.journal)
  {
    hide TraceOk, Operate, Act, FilesOk, Follows;
    BeginOk(s.files);
    NowOk(Begin(s.files));
    match e
    case Operated(op, cut) =>
      OperateKeeps(Begin(s.files), op);
      OneJournalWrite(s.files, op);
      DurableKeeps(Operate(Begin(s.files), op), cut);
      if cut.Some? && cut.value <= |Operate(Begin(s.files), op).wal| { OperatedJournal(s.files, op, cut.value); }
    case Iterated(poll, cut) =>
      if s.worker.Some? {
        ActKeeps(Begin(s.files), s.worker.value, poll);
        ActBase(Begin(s.files), s.worker.value, poll);
        DurableKeeps(Act(Begin(s.files), s.worker.value, poll).trace, cut);
      }
    case Read =>
    case Restarted =>
  }

  /** An iteration reports what it did since it began. */
  lemma ActBase(t: Trace, snapshot: Journal, p: Poll)
    ensures Act(t, snapshot, p).trace.base == t.base
  {
    hide Reconcile, Promote, StagedAuthorization, RecordFinalized, RecordPromoted, RecordMissed;
    ReconcileBase(t);
    var committed := Reconcile(t);
    ReconcileBase(committed);
    var t1 := Authorize(committed, p.registry).0;
    forall j ensures Journaling(t1, j).base == t1.base {}
    forall j, a ensures Promote(Journaling(t1, j), a).base == t1.base { PromoteBase(Journaling(t1, j), a); }
    forall a ensures Promote(t1, a).base == t1.base { PromoteBase(t1, a); }
  }

  lemma ReconcileBase(t: Trace)
    ensures Reconcile(t).base == t.base
  {
    hide StagedAuthorization, BeforePromotion;
  }

  lemma PromoteBase(t: Trace, a: Authorization)
    ensures Promote(t, a).base == t.base
  {
    hide Reconcile, StagedAuthorization;
    ReconcileBase(t);
  }

  /** Good files before an upgrade: nothing journaled, nothing half promoted. */
  predicate Fresh(f: Files) {
    f.journal.None? && f.replaced == 0 && Sound(f)
  }

  lemma {:induction false} RunKeeps(f: Files, events: seq<Event>)
    requires Fresh(f)
    ensures SysOk(After(f, events))
    decreases |events|
  {
    hide FilesOk, Step;
    if events == [] {
      FreshOk(f);
    } else {
      RunKeeps(f, events[..|events| - 1]);
      StepKeeps(After(f, events[..|events| - 1]), events[|events| - 1]);
    }
  }

  lemma FreshOk(f: Files)
    requires Fresh(f)
    ensures FilesOk(f)
  {
  }

  // ----- the main theorems -----

  /**
   In every run, with a crash between any two durable writes: a journal that says Promoted
   means the committed manifest is the candidate; the manifest is replaced at most once, and
   only while the journal says Finalized or Promoted; a missed cutoff means it never was.
   */
  lemma PromotionIsJournaled(f: Files, events: seq<Event>)
    requires Fresh(f)
    ensures var g := After(f, events).files;
            && g.replaced <= 1
            && (g.replaced == 1 ==> g.journal.Some? && (g.journal.value.Finalized? || g.journal.value.Promoted?)
                                    && g.manifest == g.journal.value.context.candidate)
            && (g.journal.Some? && g.replaced == 0 ==> g.manifest == g.journal.value.context.predecessor)
            && (g.journal.Some? && g.journal.value.Promoted? ==> g.replaced == 1)
            && (g.journal.Some? && g.journal.value.MissedCutoff? ==> g.replaced == 0)
  {
    hide After, Sound;
    RunKeeps(f, events);
  }

  /** Promoted and MissedCutoff are final, hence exclusive, over every run; an upgrade never changes identity. */
  lemma {:induction false} FinalIsFinal(f: Files, events: seq<Event>, n: nat)
    requires Fresh(f) && n <= |events|
    ensures Follows(After(f, events[..n]).files.journal, After(f, events).files.journal)
    decreases |events|
  {
    hide SysOk, Step;
    if n == |events| {
      assert events[..n] == events;
    } else {
      var rest := events[..|events| - 1];
      FinalIsFinal(f, rest, n);
      assert rest[..n] == events[..n];
      RunKeeps(f, rest);
      StepKeeps(After(f, rest), events[|events| - 1]);
      FollowsTrans(After(f, events[..n]).files.journal, After(f, rest).files.journal, After(f, events).files.journal);
    }
  }

  predicate IsPromoted(f: Files) {
    f.journal.Some? && f.journal.value.Promoted?
  }

  /**
   A submitted upgrade whose intent the finalized registry binds is promoted by an iteration
   exactly when the iteration read the journal as Submitted, could read the successor status,
   and found no other successor staged. The finalized height does not matter, even past the
   activation height.
   */
  lemma SubmittedIsPromotedExactlyWhen(f: Files, j: Journal, snapshot: Journal, p: Poll)
    requires FilesOk(f) && f.journal == Some(j) && j.Submitted? && Holding(snapshot, f.journal)
    requires p.registry.Bound? && p.registry.intent == j.submission.intent && p.registry.height != 0 &&
             p.registry.hash != 0
    ensures IsPromoted(Act(Begin(f), snapshot, p).trace.files) <==>
              snapshot.Submitted? && p.status.Some? && SuccessorAgrees(p.status.value, j.context)
  {
    hide TraceOk, Reconcile, FilesOk, Recover, FinalizeSubmitted;
    BeginOk(f);
    SubmittedShape(f);
    ValidNow(f, j);
    if snapshot.Submitted? { SubmittedPromotes(Begin(f), j, p.registry); }
  }

  lemma ValidNow(f: Files, j: Journal)
    requires FilesOk(f) && f.journal == Some(j)
    ensures Valid(j)
  {
  }

  lemma SubmittedPromotes(t: Trace, j: Journal, registry: Registry)
    requires TraceOk(t) && t.ok && t.files.journal == Some(j) && j.Submitted? &&
             t.files.manifest == j.context.predecessor && Valid(j)
    requires registry.Bound? && registry.intent == j.submission.intent && registry.height != 0 && registry.hash != 0
    ensures var done := FinalizeSubmitted(t, registry).1;
            done.Some? && IsPromoted(done.value.trace.files) && done.value.ending == RestartRequired
  {
    hide TraceOk, Reconcile, Authorize, Complete, FilesOk;
    ReconcileKeeps(t);
    var committed := Reconcile(t);
    AuthorizeKeeps(committed, registry);
    AuthorizeExact(committed, j, registry);
    var t1 := Authorize(committed, registry).0;
    var next := RecordFinalized(t1.files.journal, registry.height, registry.hash);
    FinalizedKeeps(t1, registry.height, registry.hash);
    CompleteKeeps(t1.Do(SetJournal(next.value)), next.value);
  }

  /**
   Cut off anywhere, the promotion is finished by the next iteration: from any crash point of
   an iteration that promotes, a restarted worker that reads the same finalized state ends
   with the journal Promoted and the candidate committed.
   */
  lemma RecoveryPromotes(f: Files, j: Journal, p: Poll, cut: Option<nat>)
    requires FilesOk(f) && f.journal == Some(j) && j.Submitted?
    requires p.registry.Bound? && p.registry.intent == j.submission.intent && p.registry.height != 0 &&
             p.registry.hash != 0
    requires p.status.Some? && SuccessorAgrees(p.status.value, j.context)
    ensures var d := Durable(Act(Begin(f), j, p).trace, cut);
            && d.journal.Some? && !d.journal.value.MissedCutoff?
            && IsPromoted(Act(Begin(d), d.journal.value, p).trace.files)
  {
    hide TraceOk, FilesOk, Act, Durable;
    BeginOk(f);
    ActKeeps(Begin(f), j, p);
    ActBase(Begin(f), j, p);
    var d := Durable(Act(Begin(f), j, p).trace, cut);
    DurableKeeps(Act(Begin(f), j, p).trace, cut);
    SubmittedIsPromotedExactlyWhen(f, j, j, p);
    var k := d.journal.value;
    if k.Submitted? {
      SubmittedIsPromotedExactlyWhen(d, k, k, p);
    } else {
      LaterPromotes(d, k, p);
    }
  }

  lemma LaterPromotes(d: Files, k: Journal, p: Poll)
    requires FilesOk(d) && d.journal == Some(k) && (k.Finalized? || k.Promoted?)
    requires p.registry.Bound? && p.registry.intent == k.submission.intent
    ensures IsPromoted(Act(Begin(d), k, p).trace.files)
  {
    hide TraceOk, FilesOk, Recover;
    BeginOk(d);
    if k.Finalized? { RecoverKeeps(Begin(d), k, p.registry); }
  }
}
