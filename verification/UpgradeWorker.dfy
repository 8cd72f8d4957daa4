/** The promotion worker as it runs: a loop that updates the node's files in place. */
module UpgradeWorker {
  import opened Basics
  import opened UpgradeJournal
  import opened UpgradeHost
  import opened UpgradeRuns

  /** What the worker's loop does with a sequence of polls; without a journal it only waits. */
  function Worker(f: Files, polls: seq<Poll>): (Files, Ending)
    decreases |polls|
  {
    if polls == [] then (f, Again)
    else if f.journal.None? then Worker(f, polls[1..])
    else
      var i := Act(Begin(f), f.journal.value, polls[0]);
      if i.ending == Again then Worker(i.trace.files, polls[1..]) else (i.trace.files, i.ending)
  }

  class NodeDirectory {
    var files: Files
    var written: seq<Write>  // the writes of the current operation
    ghost var base: Files

    constructor (files: Files)
      ensures this.files == files && written == [] && base == files
    {
      this.files := files;
      written := [];
      base := files;
    }

    ghost function View(ok: bool): Trace
      reads this
    {
      Trace(base, written, files, ok)
    }

    method Write(w: Write)
      modifies this
      ensures View(true) == old(View(true)).Do(w)
    {
      files := Apply(files, w);
      written := written + [w];
    }

    /** `reconcile_replacement_state`. */
    method ReconcileState() returns (ok: bool)
      modifies this
      ensures View(ok) == Reconcile(old(View(true)))
    {
      if files.promotionNext.Some? {
        if StagedAuthorization(files).None? || files.promotionNext != StagedAuthorization(files) { return false; }
        Write(CommitPromotion);
      }
      if files.candidate.None? {
        ok := DropResidueFiles();
        return;
      }
      if files.submission.Some? && StagedAuthorization(files).None? { return false; }
      if files.relay && files.submission.None? { return false; }
      if files.manifest == files.candidate.value.predecessor { return BeforePromotion(files); }
      if files.manifest != files.candidate.value.manifest { return false; }
      ok := FinishPromotionFiles();
    }

    method DropResidueFiles() returns (ok: bool)
      modifies this
      ensures View(ok) == ReconcileWithoutCandidate(old(View(true)))
    {
      if files.next.Some? || files.relay { return false; }
      if files.submission.Some? {
        if files.promotion.None? || files.submission.value.manifest != files.manifest
           || files.promotion.value != Authorization(files.submission.value.intent, files.manifest) {
          return false;
        }
        Write(DropSubmission);
      }
      return files.promotion.None? || files.promotion.value.manifest == files.manifest;
    }

    method FinishPromotionFiles() returns (ok: bool)
      requires files.candidate.Some?
      modifies this
      ensures View(ok) == FinishPromotion(old(View(true)))
    {
      if files.promotion.None? || files.promotion.value.manifest != files.manifest { return false; }
      if files.submission.Some? && StagedAuthorization(files) != files.promotion { return false; }
      if files.next.Some? {
        if files.next.value != files.manifest { return false; }
        Write(DropNext);
      }
      Write(DropRelay);
      Write(DropSubmission);
      Write(DropCandidate);
      return true;
    }

    /** `promote_replacement_candidate`. */
    method PromoteCandidate(a: Authorization) returns (ok: bool)
      modifies this
      ensures View(ok) == Promote(old(View(true)), a)
    {
      ok := ReconcileState();
      if !ok { return; }
      if files.candidate.None? && files.submission.None? {
        return files.promotion == Some(a) && files.manifest == a.manifest;
      }
      if files.candidate.None? || files.submission.None? { return false; }
      if files.candidate.value.predecessor != files.manifest || StagedAuthorization(files) != Some(a) { return false; }
      if files.next.Some? && files.next.value != files.candidate.value.manifest { return false; }
      var staged := files.next.Some?;
      Write(DropPromotionNext);
      Write(StagePromotion(a));
      Write(CommitPromotion);
      if !staged { Write(StageNext(a.manifest)); }
      Write(CommitManifest);
      Write(DropRelay);
      Write(DropSubmission);
      Write(DropCandidate);
      return true;
    }

    method Record(next: Option<Journal>) returns (ok: bool)
      modifies this
      ensures View(ok) == Journaling(old(View(true)), next)
    {
      if next.None? { return false; }
      Write(SetJournal(next.value));
      return true;
    }

    /** `construct_local_finalized_replacement_authorization_with_view_v1`. */
    method AuthorizeReplacement(r: Registry) returns (a: Authorized, ok: bool)
      modifies this
      ensures (View(ok), a) == Authorize(old(View(true)), r)
    {
      if r.Unreadable? { return AuthorizationFailed, true; }
      if r.NoBinding? { return BindingMissing, true; }
      ok := ReconcileState();
      if !ok || files.submission.None? { return AuthorizationFailed, ok; }
      if files.submission.value.intent != r.intent { return BindingMissing, ok; }
      if files.candidate.None? || files.candidate.value.predecessor != files.manifest {
        return AuthorizationFailed, ok;
      }
      var staged := StagedAuthorization(files);
      if staged.None? { return AuthorizationFailed, ok; }
      return Authorized(staged.value, r.height, r.hash), ok;
    }

    method CompletePromotion(a: Authorization) returns (ending: Ending, ok: bool)
      modifies this
      ensures Iteration(View(ok), ending) == Complete(old(View(true)), a)
    {
      ok := PromoteCandidate(a);
      if !ok { return Returned, false; }
      ok := Record(RecordPromoted(files.journal));
      ending := if ok then RestartRequired else Returned;
    }

    method RecoverFinalized(c: Context, r: Registry) returns (ending: Ending, ok: bool)
      modifies this
      ensures Iteration(View(ok), ending) == Recover(old(View(true)), c, r)
    {
      ok := ReconcileState();
      if !ok { return Returned, false; }
      if files.manifest == c.candidate {
        ok := Record(RecordPromoted(files.journal));
        return Returned, ok;
      }
      var a, authorized := AuthorizeReplacement(r);
      if !a.Authorized? { return Returned, authorized; }
      hide Promote, Reconcile;
      assert authorized;
      ending, ok := CompletePromotion(a.authorization);
    }

    /** The Submitted branch; `done` is false when the binding is missing and the cutoff is checked next. */
    method PromoteSubmitted(r: Registry) returns (done: bool, ending: Ending, ok: bool)
      modifies this
      ensures var (t, result) := FinalizeSubmitted(old(View(true)), r);
              if done then result == Some(Iteration(View(ok), ending)) else result.None? && View(ok) == t
    {
      ok := ReconcileState();
      if !ok { return true, Returned, false; }
      var a;
      a, ok := AuthorizeReplacement(r);
      match a
      case BindingMissing => return false, Again, ok;
      case AuthorizationFailed => return true, Returned, ok;
      case Authorized(authorization, height, hash) =>
        hide Promote, Reconcile;
        assert ok;
        ok := Record(RecordFinalized(files.journal, height, hash));
        if !ok { return true, Returned, false; }
        ending, ok := CompletePromotion(authorization);
        return true, ending, ok;
    }

    method RecordCutoff(c: Context, height: nat) returns (ending: Ending, ok: bool)
      modifies this
      ensures Iteration(View(ok), ending) == CheckCutoff(old(View(true)), c, height)
    {
      if height < c.activation { return Again, true; }
      ok := Record(RecordMissed(files.journal, height, c.activation));
      return Returned, ok;
    }

    /** One iteration of the worker's loop. */
    method Iterate(snapshot: Journal, p: Poll) returns (ending: Ending, ok: bool)
      requires TraceOk(View(true)) && Holding(snapshot, files.journal)
      modifies this
      ensures Iteration(View(ok), ending) == Act(old(View(true)), snapshot, p)
    {
      hide TraceOk, Recover, FinalizeSubmitted, CheckCutoff, FilesOk;
      ok := true;
      if snapshot.Promoted? || snapshot.MissedCutoff? { return Returned, ok; }
      if snapshot.Finalized? {
        ending, ok := RecoverFinalized(snapshot.context, p.registry);
        return;
      }
      if p.status.None? { return Again, ok; }
      if !SuccessorAgrees(p.status.value, snapshot.context) { return Returned, ok; }
      if snapshot.Submitted? {
        ghost var before := View(true);
        var done;
        done, ending, ok := PromoteSubmitted(p.registry);
        if done { return; }
        FinalizeKeeps(before, p.registry);
        assert ok;
      }
      ending, ok := RecordCutoff(snapshot.context, p.status.value.height);
    }

    /** The loop of `run_upgrade_promotion_worker_v1`, over the polls it lives to see. */
    method RunWorker(polls: seq<Poll>) returns (ending: Ending)
      requires FilesOk(files)
      modifies this
      ensures (files, ending) == Worker(old(files), polls)
      ensures FilesOk(files) && Follows(old(files.journal), files.journal)
    {
      hide FilesOk, Act, Follows;
      ending := Again;
      FollowsSelf(files.journal);
      var n := 0;
      while n < |polls| && ending == Again
        invariant n <= |polls| && FilesOk(files) && Follows(old(files.journal), files.journal)
        invariant Worker(old(files), polls) == if ending == Again then Worker(files, polls[n..]) else (files, ending)
        decreases |polls| - n
      {
        if files.journal.Some? {
          written := [];
          base := files;
          ghost var before := files;
          BeginOk(files);
          ActKeeps(Begin(files), files.journal.value, polls[n]);
          ActBase(Begin(files), files.journal.value, polls[n]);
          NowOk(Act(Begin(files), files.journal.value, polls[n]).trace);
          FollowsTrans(old(files.journal), before.journal,
            Act(Begin(before), before.journal.value, polls[n]).trace.files.journal);
          var ok;
          ending, ok := Iterate(files.journal.value, polls[n]);
        }
        n := n + 1;
      }
    }
  }
}
