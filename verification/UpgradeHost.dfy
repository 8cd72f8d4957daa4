/**
 The node's enclave files: the committed manifest, the staged replacement and its promotion
 receipt, next to the upgrade journal. They change by single atomic writes.
 */
module UpgradeHost {
  import opened Basics
  import opened UpgradeJournal

  /** `ReplacementCandidateRecordV1`: manifests are named by their authorization hash. */
  datatype Candidate = Candidate(predecessor: Hash, manifest: Hash)

  /** `ReplacementCandidateSubmissionV1`: the intent hash, and the manifest its evidence is about. */
  datatype Submission = Submission(intent: Hash, manifest: Hash)

  /** `FinalizedReplacementAuthorizationV1`. */
  datatype Authorization = Authorization(intent: Hash, manifest: Hash)

  datatype Files = Files(
    journal: Option<Journal>,
    manifest: Hash,
    candidate: Option<Candidate>,
    submission: Option<Submission>,
    relay: bool,
    promotion: Option<Authorization>,
    promotionNext: Option<Authorization>,
    next: Option<Hash>,
    replaced: nat)  // history: how often the committed manifest was replaced

  datatype Write =
    | SetJournal(journal: Journal)
    | StageCandidate(candidate: Candidate)
    | StageSubmission(submission: Submission)
    | StageRelay
    | DropPromotionNext
    | StagePromotion(authorization: Authorization)
    | CommitPromotion
    | StageNext(manifest: Hash)
    | CommitManifest
    | DropNext
    | DropRelay
    | DropSubmission
    | DropCandidate

  function Apply(f: Files, w: Write): Files {
    match w
    case SetJournal(j) => f.(journal := Some(j))
    case StageCandidate(c) => f.(candidate := Some(c))
    case StageSubmission(s) => f.(submission := Some(s))
    case StageRelay => f.(relay := true)
    case DropPromotionNext => f.(promotionNext := None)
    case StagePromotion(a) => f.(promotionNext := Some(a))
    case CommitPromotion => f.(promotion := f.promotionNext, promotionNext := None)
    case StageNext(m) => f.(next := Some(m))
    case CommitManifest => if f.next.None? then f
      else f.(manifest := f.next.value, next := None, replaced := f.replaced + 1)
    case DropNext => f.(next := None)
    case DropRelay => f.(relay := false)
    case DropSubmission => f.(submission := None)
    case DropCandidate => f.(candidate := None)
  }

  function ApplyAll(f: Files, ws: seq<Write>): Files {
    if ws == [] then f else Apply(ApplyAll(f, ws[..|ws| - 1]), ws[|ws| - 1])
  }

  /** An operation so far: the files it started from, its writes, the files now, and whether it failed. */
  datatype Trace = Trace(base: Files, wal: seq<Write>, files: Files, ok: bool) {
    predicate IsFailure() { !ok }
    function PropagateFailure(): Trace
      requires !ok
    {
      this
    }
    function Extract(): Trace
      requires ok
    {
      this
    }
    function Do(w: Write): Trace {
      Trace(base, wal + [w], Apply(files, w), ok)
    }
    function Fail(): Trace {
      this.(ok := false)
    }
  }

  function Begin(f: Files): Trace {
    Trace(f, [], f, true)
  }

  /** `replacement_authorization` for a staged candidate and its submission. */
  function StagedAuthorization(f: Files): Option<Authorization> {
    if f.candidate.Some? && f.submission.Some? && f.submission.value.manifest == f.candidate.value.manifest then
      Some(Authorization(f.submission.value.intent, f.candidate.value.manifest))
    else None
  }

  /** `reconcile_replacement_state`: finish or clean up what a crash left, or refuse inconsistent files. */
  function Reconcile(t: Trace): Trace {
    var t1 :- FinishReceipt(t);
    if t1.files.candidate.None? then ReconcileWithoutCandidate(t1)
    else if t1.files.submission.Some? && StagedAuthorization(t1.files).None? then t1.Fail()
    else if t1.files.relay && t1.files.submission.None? then t1.Fail()
    else if t1.files.manifest == t1.files.candidate.value.predecessor then
      if BeforePromotion(t1.files) then t1 else t1.Fail()
    else if t1.files.manifest == t1.files.candidate.value.manifest then FinishPromotion(t1)
    else t1.Fail()
  }

  /** A staged receipt is committed once it matches the staged replacement. */
  function FinishReceipt(t: Trace): Trace {
    if t.files.promotionNext.None? then t
    else if StagedAuthorization(t.files).None? || t.files.promotionNext != StagedAuthorization(t.files) then t.Fail()
    else t.Do(CommitPromotion)
  }

  function ReconcileWithoutCandidate(t: Trace): Trace {
    if t.files.next.Some? || t.files.relay then t.Fail()
    else
      var t1 :- DropResidue(t);
      if t1.files.promotion.Some? && t1.files.promotion.value.manifest != t1.files.manifest then t1.Fail() else t1
  }

  function DropResidue(t: Trace): Trace {
    if t.files.submission.None? then t
    else if t.files.promotion.None? || t.files.submission.value.manifest != t.files.manifest
            || t.files.promotion.value != Authorization(t.files.submission.value.intent, t.files.manifest) then t.Fail()
    else t.Do(DropSubmission)
  }

  /** The staged replacement is not promoted yet. */
  predicate BeforePromotion(f: Files)
    requires f.candidate.Some?
  {
    && f.candidate.value.manifest != f.manifest
    && (f.promotion.Some? && (f.promotion.value.manifest != f.manifest || f.next.Some?) ==>
      StagedAuthorization(f) == f.promotion)
    && (f.next.Some? ==> f.submission.Some? && f.promotion == StagedAuthorization(f) &&
                         f.next.value == f.candidate.value.manifest)
  }

  /** The manifest was replaced: clean up the staged files. */
  function FinishPromotion(t: Trace): Trace
    requires t.files.candidate.Some?
  {
    var f := t.files;
    if f.promotion.None? || f.promotion.value.manifest != f.manifest then t.Fail()
    else if f.submission.Some? && StagedAuthorization(f) != f.promotion then t.Fail()
    else if f.next.Some? && f.next.value != f.manifest then t.Fail()
    else (if f.next.Some? then t.Do(DropNext) else t).Do(DropRelay).Do(DropSubmission).Do(DropCandidate)
  }

  /** `promote_replacement_candidate`. */
  function Promote(t: Trace, a: Authorization): Trace {
    var t1 :- Reconcile(t);
    var f := t1.files;
    if f.candidate.None? && f.submission.None? then
      if f.promotion == Some(a) && f.manifest == a.manifest then t1 else t1.Fail()
    else if f.candidate.None? || f.submission.None? || f.candidate.value.predecessor != f.manifest
            || StagedAuthorization(f) != Some(a) then t1.Fail()
    else if f.next.Some? && f.next.value != f.candidate.value.manifest then t1.Fail()
    else ReplaceManifest(t1, a)
  }

  function ReplaceManifest(t: Trace, a: Authorization): Trace {
    var receipt := t.Do(DropPromotionNext).Do(StagePromotion(a)).Do(CommitPromotion);
    (if t.files.next.None? then receipt.Do(StageNext(a.manifest)) else receipt)
    .Do(CommitManifest).Do(DropRelay).Do(DropSubmission).Do(DropCandidate)
  }

  /** The node's own finalized registry state, as far as the upgrade reads it. */
  datatype Registry = Unreadable | NoBinding | Bound(intent: Hash, height: nat, hash: Hash)

  datatype Authorized = Authorized(authorization: Authorization, height: nat, hash: Hash) | BindingMissing
      | AuthorizationFailed

  /** `construct_local_finalized_replacement_authorization_with_view_v1`. */
  function Authorize(t: Trace, r: Registry): (Trace, Authorized) {
    if r.Unreadable? then (t, AuthorizationFailed)
    else if r.NoBinding? then (t, BindingMissing)
    else
      var t1 := Reconcile(t);
      if !t1.ok || t1.files.submission.None? then (t1, AuthorizationFailed)
      else if t1.files.submission.value.intent != r.intent then (t1, BindingMissing)
      else if t1.files.candidate.None? || t1.files.candidate.value.predecessor != t1.files.manifest then
        (t1, AuthorizationFailed)
      else if StagedAuthorization(t1.files).None? then (t1, AuthorizationFailed)
      else (t1, Authorized(StagedAuthorization(t1.files).value, r.height, r.hash))
  }

  // ----- sound files -----

  /** Files on which reconciliation never refuses. */
  predicate Sound(f: Files) {
    Reconcile(Begin(f)).ok
  }
}
