/**
 The enclave-upgrade journal: the checkpoints of one same-platform enclave replacement and
 the transitions its guard lets through.
 */
module UpgradeJournal {
  import opened Basics

  type Hash = nat

  /** `UpgradeContextV1`, without the two directory paths. */
  datatype Context = Context(predecessor: Hash, candidate: Hash, policy: Hash, activation: nat)

  /** `PreparedUpgradeSubmissionV1`: the exact transition intent and the signed relay transactions. */
  datatype Prepared = Prepared(intent: Hash, transactions: seq<Hash>)

  /** What the key-ready checkpoint proves about the candidate. */
  datatype KeyReady = KeyReady(root: Hash, offer: Hash, proof: Hash)

  /** `UpgradeJournalStateV1`. */
  datatype Journal =
    | CandidatePrepared(context: Context)
    | RootCopied(context: Context, root: Hash)
    | CandidateKeyReady(context: Context, keys: KeyReady)
    | SubmissionPrepared(context: Context, keys: KeyReady, submission: Prepared)
    | Submitted(context: Context, keys: KeyReady, submission: Prepared, submittedAt: nat)
    | Finalized(context: Context, keys: KeyReady, submission: Prepared, height: nat, hash: Hash)
    | Promoted(context: Context, keys: KeyReady, submission: Prepared, height: nat, hash: Hash)
    | MissedCutoff(context: Context, height: nat, activation: nat)

  predicate ValidContext(c: Context) {
    c.predecessor != 0 && c.candidate != 0 && c.predecessor != c.candidate && c.policy != 0 && c.activation != 0
  }

  predicate ValidKeys(k: KeyReady) {
    k.root != 0 && k.offer != 0 && k.proof != 0
  }

  predicate ValidPrepared(p: Prepared) {
    p.intent != 0 && p.transactions != []
  }

  predicate Valid(j: Journal) {
    ValidContext(j.context) &&
    match j
    case CandidatePrepared(_) => true
    case RootCopied(_, root) => root != 0
    case CandidateKeyReady(_, keys) => ValidKeys(keys)
    case SubmissionPrepared(_, keys, p) => ValidKeys(keys) && ValidPrepared(p)
    case Submitted(_, keys, p, _) => ValidKeys(keys) && ValidPrepared(p)
    case Finalized(_, keys, p, _, hash) => ValidKeys(keys) && ValidPrepared(p) && hash != 0
    case Promoted(_, keys, p, _, hash) => ValidKeys(keys) && ValidPrepared(p) && hash != 0
    case MissedCutoff(_, height, activation) => activation != 0 && activation <= height
  }

  /** The pairs `validate_checkpoint_transition` lets through. */
  predicate Allowed(current: Journal, next: Journal) {
    match next
    case CandidatePrepared(_) => false
    case RootCopied(_, _) => current.CandidatePrepared?
    case CandidateKeyReady(_, _) => current.RootCopied?
    case SubmissionPrepared(_, _, _) => current.CandidateKeyReady?
    case Submitted(_, _, _, _) => current.SubmissionPrepared? || current.Submitted?
    case Finalized(_, _, _, _, _) => current.Submitted?
    case Promoted(_, _, _, _, _) => current.Finalized? || current.Promoted?
    case MissedCutoff(_, _, _) => !current.Finalized? && !current.Promoted?
  }

  predicate HasKeys(j: Journal) {
    !j.CandidatePrepared? && !j.RootCopied? && !j.MissedCutoff?
  }

  predicate HasSubmission(j: Journal) {
    HasKeys(j) && !j.CandidateKeyReady?
  }

  /** Security material never changes across checkpoints. */
  predicate MaterialKept(current: Journal, next: Journal) {
    && (current.RootCopied? && HasKeys(next) ==> current.root == next.keys.root)
    && (current.RootCopied? && next.RootCopied? ==> current.root == next.root)
    && (HasKeys(current) && HasKeys(next) ==> current.keys == next.keys)
    && (HasKeys(current) && next.RootCopied? ==> false)
    && (HasSubmission(current) && HasKeys(next) ==> HasSubmission(next) && current.submission == next.submission)
  }

  /** `UpgradeJournalGuardV1::store`: the journal afterwards, or a refusal. */
  function Store(current: Option<Journal>, next: Journal): Option<Journal> {
    if current.Some? && (next.context != current.value.context || !Allowed(current.value, next) ||
      !MaterialKept(current.value, next)) then None
    else if !Valid(next) then None
    else Some(next)
  }

  function RecordFinalized(current: Option<Journal>, height: nat, hash: Hash): Option<Journal> {
    if height == 0 || hash == 0 || current.None? || !current.value.Submitted? then None
    else Store(current, Finalized(current.value.context, current.value.keys, current.value.submission, height, hash))
  }

  function RecordPromoted(current: Option<Journal>): Option<Journal> {
    if current.None? || !current.value.Finalized? then None
    else Store(current, Promoted(current.value.context, current.value.keys, current.value.submission,
      current.value.height, current.value.hash))
  }

  function RecordMissed(current: Option<Journal>, height: nat, activation: nat): Option<Journal> {
    if activation == 0 || height < activation || current.None? || current.value.Finalized? ||
      current.value.Promoted? then None
    else Store(current, MissedCutoff(current.value.context, height, activation))
  }

  // ----- what the guard keeps -----

  /** The order of the checkpoints. */
  function Rank(j: Journal): nat {
    match j
    case CandidatePrepared(_) => 0
    case RootCopied(_, _) => 1
    case CandidateKeyReady(_, _) => 2
    case SubmissionPrepared(_, _, _) => 3
    case Submitted(_, _, _, _) => 4
    case Finalized(_, _, _, _, _) => 5
    case Promoted(_, _, _, _, _) => 6
    case MissedCutoff(_, _, _) => 7
  }

  /** `to` may follow `from` in a journal's life: same upgrade, same material, finals final. */
  predicate Follows(from: Option<Journal>, to: Option<Journal>) {
    from.Some? ==>
      && to.Some? && to.value.context == from.value.context && Rank(from.value) <= Rank(to.value)
      && (from.value.Promoted? ==> to == from)
      && (from.value.MissedCutoff? ==> to.value.MissedCutoff?)
      && (from.value.Finalized? ==>
        to == from || (to.value.Promoted? && to.value.height == from.value.height && to.value.hash == from.value.hash))
      && (HasSubmission(from.value) ==>
            to.value.MissedCutoff? || (HasSubmission(to.value) && to.value.submission == from.value.submission))
  }

  lemma FollowsTrans(a: Option<Journal>, b: Option<Journal>, c: Option<Journal>)
    requires Follows(a, b) && Follows(b, c)
    ensures Follows(a, c)
  {
  }
}
