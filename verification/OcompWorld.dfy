/**
 The finalized chain the observer reads: block frames by height and, at each finalized
 height, the canonical record of every OCOMP request.
 */
module OcompWorld {
  import opened Basics
  import opened OcompTypes

  /** `FinalizedRequestObservationV1`: the request a block carries. */
  datatype Observation = Observation(intentId: Hash, wwd: nat, pendingNonce: nat, attempt: nat, activation: Hash)

  datatype Frame = Frame(hash: Hash, parent: Hash, stateRoot: Hash, observation: Option<Observation>)

  /** `OcompJobStatus`. */
  datatype Status = AwaitingFinality | VotingOpen | Completed | Expired | Failed

  datatype FinalizedJob = FinalizedJob(jobId: JobId, blockHash: Hash, stateRoot: Hash, openHeight: nat, deadline: nat)

  datatype Completion = Completion(quorumHeight: nat, digest: Hash)

  /** `OcompJobRecordV1`; `request`, `bundle` and `intentHeight` come from the signed intent. */
  datatype JobRecord = JobRecord(
    request: Observation,
    bundle: Hash,
    intentHeight: nat,
    status: Status,
    finalized: Option<FinalizedJob>,
    completion: Option<Completion>)

  /**
   `member(i)`: the local key is in the committee snapshot pinned by request `i`.
   `start`: the block the node's observer starts from.
   */
  datatype World = World(frames: nat -> Frame, records: (nat, Hash) -> JobRecord, member: Hash -> bool, start: nat)

  predicate Terminal(status: Status) {
    status == Completed || status == Expired || status == Failed
  }

  /** A finalized record only moves forward: the intent is fixed, the finalized job is written once, a terminal
      record is final. */
  predicate Progress(from: JobRecord, to: JobRecord) {
    && from.request == to.request && from.bundle == to.bundle && from.intentHeight == to.intentHeight
    && (from.finalized.Some? ==> to.finalized == from.finalized)
    && (Terminal(from.status) ==> to == from)
  }

  /** The one thing assumed of the chain: later finalized states extend earlier ones. */
  ghost predicate WorldOk(w: World) {
    forall i: Hash, low: nat, high: nat | low <= high :: Progress(w.records(low, i), w.records(high, i))
  }

  /** `RequestLocatorV1`. */
  datatype Locator = Locator(request: Observation, blockNumber: nat, blockHash: Hash, stateRoot: Hash,
      beforeRequest: Checkpoint)

  /** The locator of the request carried by block `height`. */
  function LocatorAt(w: World, height: nat): Locator
    requires height >= 1
    requires w.frames(height).observation.Some?
  {
    var f := w.frames(height);
    Locator(f.observation.value, height, f.hash, f.stateRoot, Checkpoint(height - 1, f.parent))
  }

  function JobOf(l: Locator): JobId {
    JobId(l.request.intentId, l.blockHash, l.stateRoot)
  }

  /** Every block in `(low, high]` names its predecessor's hash. */
  ghost predicate Linked(w: World, low: nat, high: nat) {
    forall h :: low < h <= high ==> w.frames(h).parent == w.frames(h - 1).hash
  }
}
