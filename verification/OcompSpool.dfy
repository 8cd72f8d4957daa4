/**
 The durable state of the observer: the discovery spool (`DiscoverySpoolV1`), the closure
 checkpoint (`ContiguousCheckpointStoreV1`), the local results, the export acknowledgments
 held by retention and the projection checkpoint. It changes by single atomic writes, so
 a crash leaves the state after some prefix of the writes of an operation.
 */
module OcompSpool {
  import opened Basics
  import opened OcompTypes
  import opened OcompWorld

  /** `FinalizedJobSpecV1`; its digest is taken injective, so it stands for itself. */
  datatype JobSpec = JobSpec(cursor: nat, jobId: JobId, bundle: Hash, openHeight: nat, deadline: nat)

  /** `DiscoveryOfferRefV1`. */
  datatype OfferRef = OfferRef(generation: nat, spec: JobSpec)

  /** A record of one bundle's spool. The observation id hashes cursor and intent. */
  datatype Key = Key(bundle: Hash, cursor: nat, intent: Hash)

  datatype Ack = Ack(ref: OfferRef, leaseGeneration: nat, manifest: Hash)

  datatype Retirement = Retirement(closedThrough: nat, ref: OfferRef)

  datatype Disk = Disk(
    offers: map<Key, OfferRef>,
    acks: map<Key, Ack>,
    pending: set<Key>,
    retirements: map<Key, Retirement>,
    quarantine: set<Key>,
    closure: Checkpoint,
    projected: nat,
    results: map<JobId, Hash>,
    retained: map<JobId, Ack>,        // the exporter ACK retention has committed for a job
    everOffered: map<Key, OfferRef>,  // history: every offer ever written
    everAcked: map<Key, Ack>,         // history: every ACK ever written
    finished: seq<Checkpoint>,        // history: every FinishedHeight ever published
    seen: nat)                        // history: the highest finalized height a closure was decided at

  datatype Write =
    | PutOffer(key: Key, ref: OfferRef)
    | PutPending(key: Key)
    | PutAck(key: Key, ack: Ack)
    | PutRetirement(key: Key, retirement: Retirement)
    | PutQuarantine(key: Key)
    | DropPending(key: Key)
    | DropAck(key: Key)
    | DropOffer(key: Key)
    | DropRetirement(key: Key)
    | AdvanceClosure(next: Checkpoint, decidedAt: nat)
    | Project(height: nat)
    | PutResult(job: JobId, digest: Hash)
    | RetainAck(job: JobId, ack: Ack)
    | Publish(checkpoint: Checkpoint)  // the FinishedHeight event, ordered among the writes

  function KeyOf(ref: OfferRef): Key {
    Key(ref.spec.bundle, ref.spec.cursor, ref.spec.jobId.intent)
  }

  function Apply(d: Disk, w: Write): Disk {
    match w
    case PutOffer(k, ref) => d.(offers := d.offers[k := ref], everOffered := d.everOffered[k := ref])
    case PutPending(k) => d.(pending := d.pending + {k})
    case PutAck(k, ack) => d.(acks := d.acks[k := ack], everAcked := d.everAcked[k := ack])
    case PutRetirement(k, r) => d.(retirements := d.retirements[k := r])
    case PutQuarantine(k) => d.(quarantine := d.quarantine + {k})
    case DropPending(k) => d.(pending := d.pending - {k})
    case DropAck(k) => d.(acks := d.acks - {k})
    case DropOffer(k) => d.(offers := d.offers - {k})
    case DropRetirement(k) => d.(retirements := d.retirements - {k})
    case AdvanceClosure(next, at) => d.(closure := next, seen := if d.seen < at then at else d.seen)
    case Project(h) => d.(projected := h)
    case PutResult(j, digest) => d.(results := d.results[j := digest])
    case RetainAck(j, ack) => d.(retained := d.retained[j := ack])
    case Publish(p) => d.(finished := d.finished + [p])
  }

  /** The disk after a sequence of writes; a crash after `k` of them leaves `ApplyAll(d, ws[..k])`. */
  function ApplyAll(d: Disk, ws: seq<Write>): Disk {
    if ws == [] then d else Apply(ApplyAll(d, ws[..|ws| - 1]), ws[|ws| - 1])
  }

  lemma ApplyAllAppend(d: Disk, ws: seq<Write>, w: Write)
    ensures ApplyAll(d, ws + [w]) == Apply(ApplyAll(d, ws), w)
  {
    assert (ws + [w])[..|ws|] == ws;
  }

  lemma NoWrites(d: Disk)
    ensures ApplyAll(d, []) == d
  {
  }

  lemma OneWrite(d: Disk, w: Write)
    ensures ApplyAll(d, [w]) == Apply(d, w)
  {
    hide Apply;
    assert [w][..0] == [];
  }

  lemma TwoWrites(d: Disk, a: Write, b: Write)
    ensures ApplyAll(d, [a, b]) == Apply(Apply(d, a), b)
  {
    hide Apply;
    assert [a, b][..1] == [a];
    OneWrite(d, a);
  }

  // ----- which writes are authorised -----

  /** The offer under `k` belongs to a request of block `k.cursor` that is finalized by `height`. */
  ghost predicate Witnessed(w: World, height: nat, k: Key, ref: OfferRef) {
    && 1 <= k.cursor <= height
    && w.frames(k.cursor).observation.Some?
    && w.frames(k.cursor).observation.value.intentId == k.intent
    && var r := w.records(height, k.intent);
    && r.finalized.Some?
    && r.intentHeight == k.cursor
    && ref.spec == JobSpec(k.cursor, JobId(k.intent, w.frames(k.cursor).hash, w.frames(k.cursor).stateRoot),
                           r.bundle, r.finalized.value.openHeight, r.finalized.value.deadline)
    && KeyOf(ref) == k
  }

  /** Retirement of `k` is prepared and its height is durably closed. */
  predicate Retirable(d: Disk, k: Key) {
    k in d.retirements && d.retirements[k].closedThrough <= d.closure.number
  }

  /** Every request carried by a block in `(low, high]` is terminal at finalized height `at`. */
  ghost predicate SettledIn(w: World, low: nat, high: nat, at: nat) {
    forall h: nat :: low < h <= high && w.frames(h).observation.Some? ==>
      Terminal(w.records(at, w.frames(h).observation.value.intentId).status)
  }

  /** When a single write respects the protocol. */
  ghost predicate SafeWrite(w: World, d: Disk, wr: Write) {
    match wr
    case PutOffer(k, ref) =>
      k !in d.offers && k !in d.retirements && k !in d.acks && d.closure.number < k.cursor &&
        Witnessed(w, d.projected, k, ref)
    case PutPending(k) => k in d.offers
    case PutAck(k, ack) => k in d.offers && k !in d.acks && k !in d.retirements && ack.ref == d.offers[k]
    case PutRetirement(k, r) =>
      k in d.offers && k !in d.retirements && r.ref == d.offers[k] && k.cursor <= r.closedThrough
    case PutQuarantine(_) => true
    case DropPending(_) => true
    case DropAck(k) => Retirable(d, k)
    case DropOffer(k) => Retirable(d, k) && k !in d.acks && k !in d.pending
    case DropRetirement(k) => Retirable(d, k) && k !in d.offers
    case AdvanceClosure(next, at) =>
      && d.closure.number < next.number <= d.projected
      && SettledIn(w, d.closure.number, next.number, at)
      && next.hash == w.frames(next.number).hash
      && forall k :: k in d.offers && k.cursor <= next.number ==> k in d.retirements
    case Project(h) => d.projected < h
    case PutResult(j, _) => j !in d.results
    case RetainAck(j, ack) =>
      && ack.ref.spec.jobId == j && (j in d.retained ==> d.retained[j] == ack)
      && KeyOf(ack.ref) in d.acks && d.acks[KeyOf(ack.ref)] == ack
    case Publish(p) => p == d.closure
  }

  /** Every write of the sequence is safe where it happens. */
  ghost predicate AllSafe(w: World, d: Disk, ws: seq<Write>) {
    forall k :: 0 <= k < |ws| ==> SafeWrite(w, ApplyAll(d, ws[..k]), ws[k])
  }

  // ----- the durable invariant -----

  /** Files that belong together are together. */
  ghost predicate FilesOk(d: Disk) {
    && (forall k :: k in d.acks ==> k in d.offers && d.acks[k].ref == d.offers[k])
    && d.pending <= d.offers.Keys
    && (forall k :: k in d.retirements ==> k.cursor <= d.retirements[k].closedThrough)
    && (forall k :: k in d.retirements && k in d.offers ==> d.retirements[k].ref == d.offers[k])
    && (forall k :: k in d.retirements && d.closure.number < d.retirements[k].closedThrough ==> k in d.offers)
  }

  /**
   What a restart needs. The restarted scan reads every block above the closure
   checkpoint again: whatever was offered or acknowledged for such a block is still there.
   */
  ghost predicate RestartSafe(d: Disk) {
    && (forall k :: k in d.everOffered && d.closure.number < k.cursor ==>
      k in d.offers && d.offers[k] == d.everOffered[k])
    && (forall k :: k in d.everAcked && d.closure.number < k.cursor ==> k in d.acks && d.acks[k] == d.everAcked[k])
  }

  /** The histories hold whatever is there, and retention holds only ACKs that were written. */
  ghost predicate HistoryOk(d: Disk) {
    Acked(d.acks, d.everAcked) && AllRetained(d.everAcked, d.retained)
  }

  ghost predicate Acked(acks: map<Key, Ack>, everAcked: map<Key, Ack>) {
    forall k :: k in acks ==> k in everAcked && everAcked[k] == acks[k]
  }

  ghost predicate AllRetained(everAcked: map<Key, Ack>, retained: map<JobId, Ack>) {
    forall j :: j in retained ==> WasAcked(everAcked, j, retained[j])
  }

  predicate WasAcked(everAcked: map<Key, Ack>, j: JobId, ack: Ack) {
    ack.ref.spec.jobId == j && KeyOf(ack.ref) in everAcked && everAcked[KeyOf(ack.ref)] == ack
  }

  /** Nothing is forgotten: a record left behind by the closure checkpoint has its removal recorded. */
  ghost predicate NothingLeaks(d: Disk) {
    forall k :: k in d.offers && k.cursor <= d.closure.number ==> k in d.retirements
  }

  /** The durable state agrees with the finalized chain. */
  ghost predicate Anchored(w: World, d: Disk) {
    && d.closure.number <= d.projected
    && d.closure.hash == w.frames(d.closure.number).hash
    && (forall k :: k in d.offers ==> Witnessed(w, d.projected, k, d.offers[k]))
  }

  /** Published FinishedHeights never go back and never run ahead of the durable closure. */
  ghost predicate FinishedOk(w: World, closure: Checkpoint, finished: seq<Checkpoint>) {
    && (forall x, y :: 0 <= x < y < |finished| ==> finished[x].number <= finished[y].number)
    && (forall x :: 0 <= x < |finished| ==>
      finished[x].number <= closure.number && finished[x].hash == w.frames(finished[x].number).hash)
  }

  ghost predicate DiskOk(w: World, d: Disk) {
    && FilesOk(d) && RestartSafe(d) && HistoryOk(d) && NothingLeaks(d) && Anchored(w, d)
    && FinishedOk(w, d.closure, d.finished)
    && SettledIn(w, w.start, d.closure.number, d.seen)
  }

  lemma WitnessedLater(w: World, low: nat, high: nat, k: Key, ref: OfferRef)
    requires WorldOk(w) && low <= high && Witnessed(w, low, k, ref)
    ensures Witnessed(w, high, k, ref)
  {
    assert Progress(w.records(low, k.intent), w.records(high, k.intent));
  }

  /** A safe write keeps the durable invariant. */
  lemma SafeWriteKeeps(w: World, d: Disk, wr: Write)
    requires WorldOk(w) && DiskOk(w, d) && SafeWrite(w, d, wr)
    ensures DiskOk(w, Apply(d, wr))
  {
    KeepsFiles(w, d, wr);
    KeepsRestart(w, d, wr);
    KeepsHistory(w, d, wr);
    KeepsRecorded(w, d, wr);
    KeepsAnchored(w, d, wr);
    KeepsFinished(w, d, wr);
    if wr.AdvanceClosure? { KeepsSettled(w, w.start, d.closure.number, wr.next.number, d.seen, wr.decidedAt); }
  }

  lemma KeepsFiles(w: World, d: Disk, wr: Write)
    requires FilesOk(d) && SafeWrite(w, d, wr)
    ensures FilesOk(Apply(d, wr))
  {
  }

  lemma KeepsRestart(w: World, d: Disk, wr: Write)
    requires FilesOk(d) && RestartSafe(d) && SafeWrite(w, d, wr)
    ensures RestartSafe(Apply(d, wr))
  {
  }

  /** No ACK is written twice, so what retention holds stays what was written. */
  lemma KeepsHistory(w: World, d: Disk, wr: Write)
    requires RestartSafe(d) && NothingLeaks(d) && HistoryOk(d) && SafeWrite(w, d, wr)
    ensures HistoryOk(Apply(d, wr))
  {
    hide RestartSafe, NothingLeaks, HistoryOk, SafeWrite, Apply;
    if wr.PutAck? {
      AckIsNew(w, d, wr);
      PutAckKeeps(d, wr.key, wr.ack);
    } else if wr.DropAck? {
      DropAckKeeps(d, wr.key);
    } else if wr.RetainAck? {
      RetainAckKeeps(w, d, wr);
    } else {
      OthersKeep(d, wr);
    }
  }

  lemma AckIsNew(w: World, d: Disk, wr: Write)
    requires RestartSafe(d) && NothingLeaks(d) && SafeWrite(w, d, wr) && wr.PutAck?
    ensures wr.key !in d.everAcked
  {
  }

  lemma PutAckKeeps(d: Disk, k: Key, ack: Ack)
    requires HistoryOk(d) && k !in d.everAcked
    ensures HistoryOk(Apply(d, PutAck(k, ack)))
  {
  }

  lemma DropAckKeeps(d: Disk, k: Key)
    requires HistoryOk(d)
    ensures HistoryOk(Apply(d, DropAck(k)))
  {
  }

  lemma RetainAckKeeps(w: World, d: Disk, wr: Write)
    requires HistoryOk(d) && SafeWrite(w, d, wr) && wr.RetainAck?
    ensures HistoryOk(Apply(d, wr))
  {
  }

  lemma OthersKeep(d: Disk, wr: Write)
    requires HistoryOk(d) && !wr.PutAck? && !wr.DropAck? && !wr.RetainAck?
    ensures HistoryOk(Apply(d, wr))
  {
    hide Acked, AllRetained;
  }

  lemma KeepsRecorded(w: World, d: Disk, wr: Write)
    requires NothingLeaks(d) && SafeWrite(w, d, wr)
    ensures NothingLeaks(Apply(d, wr))
  {
  }

  lemma KeepsAnchored(w: World, d: Disk, wr: Write)
    requires WorldOk(w) && Anchored(w, d) && SafeWrite(w, d, wr)
    ensures Anchored(w, Apply(d, wr))
  {
    if wr.Project? {
      forall k | k in d.offers ensures Witnessed(w, wr.height, k, d.offers[k]) {
        WitnessedLater(w, d.projected, wr.height, k, d.offers[k]);
      }
    }
  }

  lemma KeepsFinished(w: World, d: Disk, wr: Write)
    requires Anchored(w, d) && FinishedOk(w, d.closure, d.finished) && SafeWrite(w, d, wr)
    ensures FinishedOk(w, Apply(d, wr).closure, Apply(d, wr).finished)
  {
  }

  /** What is settled stays settled, so two decisions add up. */
  lemma KeepsSettled(w: World, low: nat, middle: nat, high: nat, seen: nat, at: nat)
    requires WorldOk(w) && SettledIn(w, low, middle, seen) && SettledIn(w, middle, high, at)
    ensures SettledIn(w, low, high, if seen < at then at else seen)
  {
    var later := if seen < at then at else seen;
    forall h: nat | low < h <= high && w.frames(h).observation.Some?
      ensures Terminal(w.records(later, w.frames(h).observation.value.intentId).status)
    {
      var i := w.frames(h).observation.value.intentId;
      assert Progress(w.records(if h <= middle then seen else at, i), w.records(later, i));
    }
  }

  /** So does every prefix of a safe sequence: no crash point breaks it. */
  lemma {:induction false} CrashPointsKeep(w: World, d: Disk, ws: seq<Write>, k: nat)
    requires WorldOk(w) && DiskOk(w, d) && AllSafe(w, d, ws) && k <= |ws|
    ensures DiskOk(w, ApplyAll(d, ws[..k]))
    decreases k
  {
    hide DiskOk, SafeWrite, WorldOk, Apply;
    if k > 0 {
      CrashPointsKeep(w, d, ws, k - 1);
      assert ws[..k] == ws[..k - 1] + [ws[k - 1]];
      ApplyAllAppend(d, ws[..k - 1], ws[k - 1]);
      SafeWriteKeeps(w, ApplyAll(d, ws[..k - 1]), ws[k - 1]);
    }
  }

  // ----- the spool's operations -----

  /** What an operation writes, and whether it succeeded. */
  datatype Plan = Plan(writes: seq<Write>, ok: bool)

  datatype Lookup<+T> = Found(value: T) | Absent | Unreadable

  /** `latch_conflict`: quarantine the record and fail. */
  function Conflict(k: Key): Plan {
    Plan([PutQuarantine(k)], false)
  }

  /** `put_offer_exact`. */
  function PlanOffer(d: Disk, ref: OfferRef): Plan {
    var k := KeyOf(ref);
    if k in d.quarantine then Plan([], false)
    else if k in d.offers then
      if d.offers[k] != ref then Conflict(k)
      else Plan(if k in d.acks || k in d.pending then [] else [PutPending(k)], true)
    else if k in d.acks then Conflict(k)
    else Plan([PutOffer(k, ref), PutPending(k)], true)
  }

  /** `put_ack`, the exporter's side. */
  function PlanAck(d: Disk, ack: Ack): Plan {
    var k := KeyOf(ack.ref);
    if k in d.quarantine then Plan([], false)
    else if k in d.retirements then
      if d.retirements[k].ref == ack.ref then Plan([], true) else Conflict(k)
    else if k !in d.offers then Plan([], k !in d.acks && k !in d.pending)
    else if d.offers[k] != ack.ref then Conflict(k)
    else if k in d.acks then
      if d.acks[k] == ack then Plan([DropPending(k)], true) else Conflict(k)
    else Plan([PutAck(k, ack), DropPending(k)], true)
  }

  /** `pending`: the unacknowledged offer, if any; also repairs the pending marker. */
  function PlanPending(d: Disk, k: Key): Plan {
    if k in d.quarantine then Plan([], false)
    else if k in d.retirements || k !in d.offers then Plan([], true)
    else if k in d.acks then Plan([DropPending(k)], true)
    else Plan(if k in d.pending then [] else [PutPending(k)], true)
  }

  function LookupPending(d: Disk, k: Key): Lookup<OfferRef> {
    if k in d.quarantine then Unreadable
    else if k in d.retirements || k !in d.offers || k in d.acks then Absent
    else Found(d.offers[k])
  }

  /** `ack`. */
  function LookupAck(d: Disk, k: Key): Lookup<Ack> {
    if k in d.quarantine then Unreadable
    else if k !in d.acks then Absent
    else if k !in d.offers || d.acks[k].ref != d.offers[k] then Unreadable
    else Found(d.acks[k])
  }

  /** `prepare_retirement`. */
  function PlanPrepare(d: Disk, ref: OfferRef, closedThrough: nat): Plan {
    var k := KeyOf(ref);
    if closedThrough == 0 || ref.generation == 0 || k in d.quarantine then Plan([], false)
    else if k in d.retirements then
      if d.retirements[k].ref == ref then Plan([], true) else Conflict(k)
    else if k !in d.offers then Plan([], k !in d.acks && k !in d.pending)
    else if d.offers[k] != ref then Conflict(k)
    else if k in d.acks && d.acks[k].ref != d.offers[k] then Plan([], false)
    else Plan([PutRetirement(k, Retirement(closedThrough, ref))], true)
  }

  /** One directory entry of `complete_retirements_through`. */
  function PlanComplete(d: Disk, k: Key, closed: nat): Plan {
    if k !in d.retirements then Plan([], false)
    else if closed < d.retirements[k].closedThrough then Plan([], true)
    else if k in d.quarantine then Plan([], false)
    else if k in d.offers && d.offers[k] != d.retirements[k].ref then Conflict(k)
    else if k in d.acks && (k !in d.offers || d.acks[k].ref != d.offers[k]) then Plan([], false)
    else if k in d.pending && k !in d.offers then Plan([], false)
    else Plan(Erasure(k), true)
  }

  /** A plan's writes are all safe, so every crash point inside it is covered. */
  ghost predicate SafePlan(w: World, d: Disk, p: Plan) {
    AllSafe(w, d, p.writes)
  }

  lemma AckPlanSafe(w: World, d: Disk, ack: Ack)
    requires DiskOk(w, d)
    ensures SafePlan(w, d, PlanAck(d, ack))
  {
    PlanOfTwo(d, PlanAck(d, ack).writes);
  }

  lemma PendingPlanSafe(w: World, d: Disk, k: Key)
    requires DiskOk(w, d)
    ensures SafePlan(w, d, PlanPending(d, k))
  {
    PlanOfTwo(d, PlanPending(d, k).writes);
  }

  lemma OfferPlanSafe(w: World, d: Disk, ref: OfferRef)
    requires DiskOk(w, d)
    requires d.closure.number < ref.spec.cursor && Witnessed(w, d.projected, KeyOf(ref), ref)
    ensures SafePlan(w, d, PlanOffer(d, ref))
  {
    PlanOfTwo(d, PlanOffer(d, ref).writes);
  }

  lemma PreparePlanSafe(w: World, d: Disk, ref: OfferRef, closedThrough: nat)
    requires DiskOk(w, d) && ref.spec.cursor <= closedThrough
    ensures SafePlan(w, d, PlanPrepare(d, ref, closedThrough))
  {
    PlanOfTwo(d, PlanPrepare(d, ref, closedThrough).writes);
  }

  /** Short write sequences, unfolded. */
  lemma PlanOfTwo(d: Disk, ws: seq<Write>)
    ensures |ws| >= 1 ==> ApplyAll(d, ws[..0]) == d && ApplyAll(d, ws[..1]) == Apply(d, ws[0])
  {
    if |ws| >= 1 {
      assert ws[..0] == [];
      assert ws[..1] == [] + [ws[0]];
      ApplyAllAppend(d, [], ws[0]);
    }
  }

  /** The disk without the record of `k`. */
  function Erased(d: Disk, k: Key): Disk {
    d.(acks := d.acks - {k}, pending := d.pending - {k}, offers := d.offers - {k}, retirements := d.retirements - {k})
  }

  function Erasure(k: Key): seq<Write> {
    [DropAck(k), DropPending(k), DropOffer(k), DropRetirement(k)]
  }

  /** The four removals, one by one. */
  lemma ErasureSteps(d: Disk, k: Key)
    ensures ApplyAll(d, Erasure(k)[..0]) == d
    ensures ApplyAll(d, Erasure(k)[..1]) == d.(acks := d.acks - {k})
    ensures ApplyAll(d, Erasure(k)[..2]) == d.(acks := d.acks - {k}, pending := d.pending - {k})
    ensures ApplyAll(d, Erasure(k)[..3]) ==
            d.(acks := d.acks - {k}, pending := d.pending - {k}, offers := d.offers - {k})
    ensures ApplyAll(d, Erasure(k)) == Erased(d, k)
  {
    var ws := Erasure(k);
    assert ws[..1] == ws[..0] + [ws[0]];
    assert ws[..2] == ws[..1] + [ws[1]];
    assert ws[..3] == ws[..2] + [ws[2]];
    assert ws == ws[..3] + [ws[3]];
    ApplyAllAppend(d, ws[..0], ws[0]);
    ApplyAllAppend(d, ws[..1], ws[1]);
    ApplyAllAppend(d, ws[..2], ws[2]);
    ApplyAllAppend(d, ws[..3], ws[3]);
  }

  lemma ErasureSafe(w: World, d: Disk, k: Key)
    requires Retirable(d, k)
    ensures AllSafe(w, d, Erasure(k))
  {
    ErasureSteps(d, k);
    var ws := Erasure(k);
    forall i | 0 <= i < |ws| ensures SafeWrite(w, ApplyAll(d, ws[..i]), ws[i]) {
      assert i == 0 || i == 1 || i == 2 || i == 3;
    }
  }

  /** Removing a retired record is safe write by write, and it erases exactly that record. */
  lemma CompletePlanSafe(w: World, d: Disk, k: Key, closed: nat)
    requires DiskOk(w, d) && closed <= d.closure.number
    ensures SafePlan(w, d, PlanComplete(d, k, closed))
    ensures PlanComplete(d, k, closed).ok && d.retirements[k].closedThrough <= closed ==>
              ApplyAll(d, PlanComplete(d, k, closed).writes) == Erased(d, k)
  {
    var p := PlanComplete(d, k, closed);
    if p.ok && d.retirements[k].closedThrough <= closed {
      ErasureSafe(w, d, k);
      ErasureSteps(d, k);
    }
  }

  /** On a sound disk no recovery path of the removal is ever taken: only quarantine stops it. */
  lemma CompletionNeverStuck(w: World, d: Disk, k: Key, closed: nat)
    requires DiskOk(w, d) && k in d.retirements && k !in d.quarantine
    ensures PlanComplete(d, k, closed).ok
  {
  }
}
