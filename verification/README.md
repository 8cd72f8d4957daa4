# Verified model of the finalized observer, the TEE protocols and the genesis scripts

A Dafny 4.11 model of the parts of this repository whose correctness is hard to see by
reading, with proofs over every input, every run and every crash point. `dafny verify
dfyconfig.toml` checks all of it. Every member has a body; nothing is assumed.

## What is modelled

**The embedded OCOMP observer** (`bin/outbe-chain/src/ocomp_exex.rs`, with the job reducer
and the discovery spool it drives). `OcompObserver` gives every step as a function on a
value that holds the maps, the disk and the writes of the current tick: recording a
request, scanning a frame, the driven and undriven refresh, worker outcomes, the two-phase
closure flush, the poll tick, and startup. `OcompInvariant`, `OcompRefresh`, `OcompClosure`
and `OcompTick` prove that each step keeps one invariant, with every single durable write
safe on its own; `OcompWork` proves that what the maps mark as done was done. `OcompRuns`
lifts this to whole runs in which the process may be cut off between any two writes of a
tick and restarted on what is on disk. `OcompRuntime` is the observer as it runs, an object
whose fields are updated in place by loops; each of its methods is proved equal to the
function of the same step, and `RunTask` to a run. What the chain, the retention service,
the exporter and the workers answer is a parameter of each step, so the theorems hold for
all their answers.

What the run theorems take from the surroundings, and nothing else:
- a later finalized state extends an earlier one (`WorldOk`): an intent is fixed, a
  finalized job is written once, a terminal record stays as it is;
- a computation outcome belongs to a computation this process started (`Plausible`);
- the hash behind a job id is injective, so a job id is its preimage.

Frames, hashes, parents, listings, replies and the points at which the process dies are
unconstrained; a frame whose parent does not match is one of the inputs.

**The TEE lease gate** (`bin/outbe-chain/src/main.rs`): `LeaseGate`, over every sequence of
finalized heads. **The enclave-upgrade promotion** (the same file, with the journal and the
node's enclave directory): `UpgradeJournal`, `UpgradeHost`, `UpgradeRuns`, `UpgradeCutoff`,
`UpgradeWorker`, over every interleaving of the worker, the operator and crashes between
any two file writes. **Materialization scheduling**: `Materialization`.

**The genesis seeder** (`scripts/seed_genesis.py`): `Calendar`, `KeccakSpec`, `Keccak`,
`KeccakSponge` (the in-place loops against the bit-level definitions of sections 3.2, 3.3
and 5.1 of FIPS 202; the tables of offsets and round constants the loops use are proved to
be the ones those definitions generate), `HexText` (how the script reads hexadecimal
texts), `Storage`, `TeePolicy`, `P2pAddress`, `Oracle`, `Gems`. **The YAML subset**
(`scripts/create_genesis.py`): `YamlText`, `YamlParser`, `YamlPrinter`, `YamlRoundTrip`.

`Basics`, `Binary` and `ByteOrder` hold what several of these share.

Properties one would expect and that do not hold of the code as it is. Each has lemmas that
show the failure and the condition under which it does not occur:
- An upgrade that the registry binds should be promoted. It is lost if and only if, past its
  cutoff, an iteration acts on a reading from before Submitted or an operator marks it missed
  (`BoundIsMissedExactlyWhen`, over every run). Three inputs lose it: a reading that Submitted
  overtook (`StaleReadMissesCutoff`), a transaction sent but not journaled
  (`UnjournaledSubmissionMissesCutoff`) and an operator's mark (`OperatorMissesCutoff`).
- An owner's stored count and index should be those of its gems. They are if and only if no
  owner is spelled both with and without `0x` and none is spelled with white space
  (`ConservedExactlyWhen`): counts are kept by spelling and slots by address, and the byte
  reader skips white space that the length check has counted
  (`PrefixBreaksConservation`, `BlanksBreakConservation`).
- Policies with the same hashed buffer should be the same policy. They are where no
  measurement is written with white space (`BufferIsCanonical`); with it, on both sides or on
  one, different policies collide (`BlanksBreakCanonicity`, `BlanksOnOneSideBreakCanonicity`).
- The two pair indexes of the oracle should be inverse. They are if and only if no asset is
  written with white space inside (`InverseExactlyWhen`, `BlanksBreakOrientation`).
- A day key should lead back to its timestamp. It does exactly up to the year 9999
  (`DayKeyRoundTrip`).

## Model

| member | source | states |
|---|---|---|
| `OcompRuns.RetirementIsCrashSafe` | bin/outbe-chain/src/ocomp_exex.rs:1441-1508 | After every run and every crash point: each offer and ACK ever written for a block above the durable closure is still there and unchanged; an ACK has its offer; a record at or below the closure has its removal recorded; a removal that is not yet authorised still has its offer |
| `OcompRuns.ClosureIsSafe` | bin/outbe-chain/src/ocomp_exex.rs:1422-1468 | After every run and every crash point: the closure is a block of the finalized chain at or below the projected height, every request at or below it is terminal in a finalized state that was seen, and published FinishedHeights are blocks of the chain that never go back and never run ahead of it |
| `OcompRuns.WindowIsExact` | bin/outbe-chain/src/ocomp_exex.rs:935-971 | In every reachable running state the tracked requests are exactly those carried by the scanned blocks above the closure, each with the locator of its block, and those blocks are hash-linked |
| `OcompRuns.BooksAgree` | bin/outbe-chain/src/ocomp_exex.rs:1973-1988 | In every reachable running state the runtime and the reducer never disagree about a job, a generation names one job, a job has its request and the finalized spec, acknowledged exports and pending offers name live jobs, and a closed request with a mapped job still has that job, terminal |
| `OcompRuns.EffectsAreEntitled` | bin/outbe-chain/src/ocomp_exex.rs:1183-1242 | Over every run: offers and Validator computations start only with the scan at the sampled target; a computation found, at the moment it was spawned, the exact ACK of its job's own offer in retention, where it still is; a vote is started only for a committee member of a Validator; a released job is adopted only on the exact ACK of the claimed export, or without any once expired; and no job is computed or voted on twice in one process |
| `OcompRuns.NoVoteIsLost` | bin/outbe-chain/src/ocomp_exex.rs:1787-1834 | In every reachable running state, whatever the order of result, membership and restart: for an eligible started job with a durable result this process has spawned the vote, or the job is settled |
| `OcompRuns.DrivenRefreshServes` | bin/outbe-chain/src/ocomp_exex.rs:1183-1217 | A driven refresh that succeeds has served every tracked job of a VotingOpen request: its offer is in the spool, or it is acknowledged and computing (spawned, or its result durable), with the vote spawned if it is eligible and its result durable |
| `OcompRuns.MarksAreBacked` | bin/outbe-chain/src/ocomp_exex.rs:1268-1333 | In every reachable running state a pending offer is in the spool; an acknowledged or computing job has exactly its own offer and an ACK of exactly that offer in the spool, and retention holds the same ACK; a started computation was spawned or has a durable result; and a started vote of a member was spawned |
| `OcompRuns.RunStands` | bin/outbe-chain/src/ocomp_exex.rs:646-915 | The same bookkeeping facts are kept by every run over any answers, also when the loop has stopped |
| `OcompRuns.FlushLeavesNoneDue` | bin/outbe-chain/src/ocomp_exex.rs:1441-1468 | A flush that succeeds leaves no listed removal that its checkpoint authorises undone |
| `OcompRuns.TargetIsMaximal` | bin/outbe-chain/src/ocomp_exex.rs:1441-1455 | The flush stops only at the scanned block or right below an open request |
| `OcompRuns.RunKeeps` | bin/outbe-chain/src/ocomp_exex.rs:646-915 | Every run of ticks, crashes and restarts keeps the invariant while it goes on, and the durable part of it when the loop has stopped |
| `OcompRuns.CompleteFinishes` | bin/outbe-chain/src/ocomp_exex.rs:1497-1508 | Completing retirements over unquarantined records succeeds and leaves none that is due |
| `OcompRuns.RestartFinishes` | bin/outbe-chain/src/ocomp_exex.rs:528-537 | From every crash point, retirement at startup over unquarantined records succeeds, and what is left below the checkpoint waits for a higher one its removal is recorded for |
| `OcompTick.RefreshKeeps` | bin/outbe-chain/src/ocomp_exex.rs:997-1266 | A whole refresh, driven or not, keeps the invariant, moves the view to the target and leaves the scan and the recovery target alone, whatever retention, exporter and chain answer |
| `OcompTick.OutcomeKeeps` | bin/outbe-chain/src/ocomp_exex.rs:1721-1785 | Handling any outcome, of a computation this process started, keeps the invariant and leaves requests, scan, view and checkpoint alone |
| `OcompTick.DrainKeeps` | bin/outbe-chain/src/ocomp_exex.rs:652-669 | Draining any list of outcomes keeps the invariant and forgets no started effect |
| `OcompTick.ScanFrameKeeps` | bin/outbe-chain/src/ocomp_exex.rs:752-857 | One frame, up to its undriven refresh, keeps the invariant and never scans past the target |
| `OcompTick.ScanFramesKeeps` | bin/outbe-chain/src/ocomp_exex.rs:752-868 | So does the frame loop, however it ends |
| `OcompTick.TickKeeps` | bin/outbe-chain/src/ocomp_exex.rs:652-915 | One poll tick keeps the invariant for all answers of its surroundings |
| `OcompTick.StartupKeeps` | bin/outbe-chain/src/ocomp_exex.rs:528-580 | A process that starts on any sound disk satisfies the invariant |
| `OcompClosure.ClosedIsTerminal` | bin/outbe-chain/src/ocomp_exex.rs:1536-1543 | A request the maps call closed is terminal in the finalized state they were refreshed against |
| `OcompClosure.TargetSettled` | bin/outbe-chain/src/ocomp_exex.rs:1441-1455 | Every request of a block the flush target leaves behind is terminal |
| `OcompClosure.PrepareKeeps` | bin/outbe-chain/src/ocomp_exex.rs:1470-1495 | Preparing keeps the invariant and all offers, never misses a mapped job, and records a removal for every closing request whose offer is there |
| `OcompClosure.CompleteKeeps` | bin/outbe-chain/src/ocomp_exex.rs:1497-1508 | Completing up to the durable closure keeps the invariant, changes only the disk, and leaves every record at or below the given height with a recorded removal |
| `OcompClosure.PruneKeeps` | bin/outbe-chain/src/ocomp_exex.rs:1510-1534 | Pruning closed requests never fails, drops exactly those requests and their jobs, and keeps the books in agreement |
| `OcompClosure.FlushKeeps` | bin/outbe-chain/src/ocomp_exex.rs:1441-1468 | The flush keeps the invariant, and when it succeeds the checkpoint is at its target and nothing else moved |
| `OcompRefresh.RefreshOneKeeps` | bin/outbe-chain/src/ocomp_exex.rs:1013-1262 | One iteration of the refresh keeps the invariant on every path; an open acknowledged job is computing after a driven one |
| `OcompRefresh.DiscoverKeeps` | bin/outbe-chain/src/ocomp_exex.rs:1048-1174 | Discovering a job, retained, released or newly bound, keeps the invariant and installs it without a started computation |
| `OcompRefresh.ReconcileKeeps` | bin/outbe-chain/src/ocomp_exex.rs:1268-1333 | Reconciling the export ACK keeps the invariant (offers only with the scan at the target, acknowledged only what is retained) and the jobs; it succeeds only for a tracked job |
| `OcompRefresh.ReleasedKeeps` | bin/outbe-chain/src/ocomp_exex.rs:1335-1420 | Adopting a released export keeps the invariant |
| `OcompRefresh.AcceptKeeps` | bin/outbe-chain/src/ocomp_exex.rs:1787-1873 | Accepting a local result settles the vote that was due and keeps the invariant |
| `OcompRefresh.RestoreKeeps` | bin/outbe-chain/src/ocomp_exex.rs:1592-1618 | Restoring a durable result of an earlier process leaves no vote due |
| `OcompRefresh.EligibilityKeeps` | bin/outbe-chain/src/ocomp_exex.rs:1875-1915 | Resolving the pinned membership changes only the eligibility of that job, only while it is pending, and to eligible only for a member of a Validator |
| `OcompRefresh.ComputeKeeps` | bin/outbe-chain/src/ocomp_exex.rs:1574-1590 | On a retained export the computation is started, and under the invariant it keeps no job is started twice |
| `OcompRefresh.ObserveCompletedKeeps` | bin/outbe-chain/src/ocomp_exex.rs:1620-1699 | Observing the quorum keeps the invariant, under which a settled job agrees with the chain, and keeps the started flags |
| `OcompRefresh.ObserveTerminalKeeps` | bin/outbe-chain/src/ocomp_exex.rs:1701-1719 | Observing a terminal status keeps the invariant, under which a settled job agrees with the chain |
| `OcompWork.RefreshOneKeep` | bin/outbe-chain/src/ocomp_exex.rs:1013-1262 | A refresh touches no job but its own request's, whatever it ends in, and a driven one serves an open job: acknowledged and computing, or waiting on its offer |
| `OcompWork.PickIsTheRecorded` | bin/outbe-chain/src/ocomp_exex.rs:1048-1174 | The pick finds the one candidate the spool has a record of, with no other recorded, and without one falls back on the first |
| `OcompWork.OutcomeCommits` | bin/outbe-chain/src/ocomp_exex.rs:1721-1785 | A computed result of a live job is durable once handled, and no durable digest is ever replaced |
| `OcompSpool.SafeWriteKeeps` | bin/outbe-ocomp/src/discovery_spool.rs:104-498 | A write that respects the protocol keeps the durable invariant: files belong together, nothing above the closure is lost, nothing below it is forgotten, the checkpoint is settled |
| `OcompSpool.CrashPointsKeep` | bin/outbe-ocomp/src/discovery_spool.rs:104-498 | So does every prefix of a sequence of such writes: no crash point breaks it |
| `OcompSpool.OfferPlanSafe` | bin/outbe-ocomp/src/discovery_spool.rs:146-198 | Each write of persisting an offer for a block above the closure is safe |
| `OcompSpool.AckPlanSafe` | bin/outbe-ocomp/src/discovery_spool.rs:200-286 | Each write of acknowledging an offer is safe |
| `OcompSpool.PreparePlanSafe` | bin/outbe-ocomp/src/discovery_spool.rs:360-408 | Each write of preparing a removal at or above the record's own block is safe |
| `OcompSpool.CompletePlanSafe` | bin/outbe-ocomp/src/discovery_spool.rs:410-498 | Each write of completing removals up to the durable closure is safe, and together they erase exactly the record |
| `OcompSpool.CompletionNeverStuck` | bin/outbe-ocomp/src/discovery_spool.rs:410-498 | On a sound disk only quarantine stops a removal |
| `OcompReducer.ReduceKeeps` | bin/outbe-ocomp/src/embedded.rs:176-279 | One event keeps a job well-formed and never moves it back; a vote is asked for only by a Validator for an open job, release needs equal and mismatch different digests |
| `OcompReducer.TerminalIsAbsorbing` | bin/outbe-ocomp/src/embedded.rs:176-279 | Over every event history in every order, what was settled is never changed by later events |
| `OcompReducer.EmbeddedJobs.constructor` | bin/outbe-ocomp/src/embedded.rs:133-139 | An empty registry |
| `OcompReducer.EmbeddedJobs.ObserveJob` | bin/outbe-ocomp/src/embedded.rs:141-174 | Observing creates one generation per new job, returns the one it has for a known job, and refuses a changed deadline or an exhausted counter without a change |
| `OcompReducer.EmbeddedJobs.ReduceEvent` | bin/outbe-ocomp/src/embedded.rs:176-279 | Reducing changes only the named job, and only to what the event makes of it |
| `OcompReducer.EmbeddedJobs.PruneTerminalJob` | bin/outbe-ocomp/src/embedded.rs:312-323 | Pruning removes exactly the named job, fails exactly for a job that is not terminal, and keeps the generation counter |
| `OcompReducer.EmbeddedJobs.ProgressLimit` | bin/outbe-ocomp/src/embedded.rs:325-346 | The exposed height is the greatest one up to the finalized height at which no live job of a FullNode is due; a Validator exposes everything |
| `OcompRuntime.Observer.constructor` | bin/outbe-chain/src/ocomp_exex.rs:543-580 | A process that starts on a disk has empty maps and resumes its scan at the closure checkpoint |
| `OcompRuntime.Observer.RecordRequestObservation` | bin/outbe-chain/src/ocomp_exex.rs:935-971 | The maps become what recording the request of the next block makes of them: refused on another record, idempotent on the same one |
| `OcompRuntime.Observer.RecordScannedFrame` | bin/outbe-chain/src/ocomp_exex.rs:1422-1440 | The scan moves to the next block only if it names the scanned one as its parent |
| `OcompRuntime.Observer.Pick` | bin/outbe-chain/src/ocomp_exex.rs:1048-1174 | The loop over retained candidates selects as the specification does: pending first, else an acknowledged one |
| `OcompRuntime.Observer.VerifyReleasedExportAck` | bin/outbe-chain/src/ocomp_exex.rs:1335-1420 | A released export is adopted only with the exact recorded ACK, or without authority only when expired |
| `OcompRuntime.Observer.ConfirmExportAck` | crates/blockchain/node/src/ocomp/retention.rs:2654-2845 | Retention in place is written once: it keeps the first ACK of a job, accepts only the same one again, and refuses another |
| `OcompRuntime.Observer.DiscoverJob` | bin/outbe-chain/src/ocomp_exex.rs:1048-1174 | Discovery in place is the specification's discovery |
| `OcompRuntime.Observer.ReconcileExportAck` | bin/outbe-chain/src/ocomp_exex.rs:1268-1333 | Offer, ACK and retention in place are the specification's, write by write |
| `OcompRuntime.Observer.AcceptLocalResult` | bin/outbe-chain/src/ocomp_exex.rs:1787-1873 | Accepting a result in place is the specification's |
| `OcompRuntime.Observer.RestoreLocalResult` | bin/outbe-chain/src/ocomp_exex.rs:1592-1618 | Restoring a result in place is the specification's |
| `OcompRuntime.Observer.EnsureComputeStarted` | bin/outbe-chain/src/ocomp_exex.rs:1574-1590 | Starting a computation in place is the specification's: once, and flagged |
| `OcompRuntime.Observer.RefreshVoteEligibility` | bin/outbe-chain/src/ocomp_exex.rs:1875-1915 | Resolving eligibility in place is the specification's, and reports exactly whether the job became eligible |
| `OcompRuntime.Observer.ObserveCompletedJob` | bin/outbe-chain/src/ocomp_exex.rs:1620-1699 | Observing completion in place is the specification's |
| `OcompRuntime.Observer.ObserveTerminalJob` | bin/outbe-chain/src/ocomp_exex.rs:1701-1719 | Observing a terminal status in place is the specification's |
| `OcompRuntime.Observer.RefreshRequest` | bin/outbe-chain/src/ocomp_exex.rs:1013-1262 | One iteration of the refresh in place is the specification's |
| `OcompRuntime.Observer.RefreshJobs` | bin/outbe-chain/src/ocomp_exex.rs:997-1266 | The refresh loop in key order is the specification's fold, stopping where it stops |
| `OcompRuntime.Observer.Handle` | bin/outbe-chain/src/ocomp_exex.rs:1721-1785 | Handling one outcome in place is the specification's |
| `OcompRuntime.Observer.DrainOutcomes` | bin/outbe-chain/src/ocomp_exex.rs:652-669 | The drain loop stops at the first failure or latched fatality, as the specification's fold does |
| `OcompRuntime.Observer.LowestOpenRequest` | bin/outbe-chain/src/ocomp_exex.rs:1441-1455 | The scan finds the open request of lowest block |
| `OcompRuntime.Observer.PrepareClosedRetirements` | bin/outbe-chain/src/ocomp_exex.rs:1470-1495 | The prepare loop writes exactly what the specification's fold writes |
| `OcompRuntime.Observer.CompleteRetirements` | bin/outbe-chain/src/ocomp_exex.rs:1497-1508 | The complete loop writes exactly what the specification's fold writes |
| `OcompRuntime.Observer.PruneClosedRequests` | bin/outbe-chain/src/ocomp_exex.rs:1510-1534 | Collecting first and then dropping is the specification's pruning |
| `OcompRuntime.Observer.FlushClosureCheckpoint` | bin/outbe-chain/src/ocomp_exex.rs:1441-1468 | Prepare, complete, advance, complete, prune, publish: in place as in the specification, in this order |
| `OcompRuntime.Observer.ScanOneFrame` | bin/outbe-chain/src/ocomp_exex.rs:752-857 | One frame in place is the specification's |
| `OcompRuntime.Observer.ScanToTarget` | bin/outbe-chain/src/ocomp_exex.rs:752-868 | The frame loop stops at the target or at the first frame that is not finished, as the specification does |
| `OcompRuntime.Observer.Tick` | bin/outbe-chain/src/ocomp_exex.rs:652-915 | A poll tick in place is the specification's |
| `OcompRuntime.Start` | bin/outbe-chain/src/ocomp_exex.rs:528-580 | Startup in place completes what the checkpoint authorises |
| `OcompRuntime.RunTask` | bin/outbe-chain/src/ocomp_exex.rs:646-915 | The whole observer, startup and then one poll after the other until it stops, ends in the state of its run, so every run theorem holds of it |
| `Materialization.Scheduler.ReconcileFrame` | bin/outbe-chain/src/ocomp_exex.rs:1990-2083 | The memory in place is the specification's: bounded to the current head, one spawn at most, none on failure |
| `Materialization.Scheduler.HandleOutcome` | bin/outbe-chain/src/ocomp_exex.rs:2125-2164 | An outcome frees the scheduler only if it is of the materialization in flight |
| `Materialization.RunGood` | bin/outbe-chain/src/ocomp_exex.rs:1990-2164 | Every run over frames in height order keeps the scheduler's invariant |
| `Materialization.Scheduling` | bin/outbe-chain/src/ocomp_exex.rs:2599-2622 | Over every run: at most one materialization in flight, at most one remembered attempt, attempts at strictly increasing heights, each for an incomplete due head and by the validator that represents the proposer |
| `Materialization.DueHeadIsServed` | bin/outbe-chain/src/ocomp_exex.rs:1990-2083 | A due head is served unless a materialization is in flight or this height was tried |
| `LeaseGate.Gate.ValidateAndArm` | bin/outbe-chain/src/main.rs:254-284 | The gate arms exactly on the anchor hash with a Ready admission, succeeds exactly when it is armed, and never disarms |
| `LeaseGate.Gate.CheckHead` | bin/outbe-chain/src/main.rs:460-505 | A check in place is the specification's |
| `LeaseGate.Gate.RunGuard` | bin/outbe-chain/src/main.rs:541-582 | The guard loop in place is the specification's run |
| `LeaseGate.PendingIsSilent` | bin/outbe-chain/src/main.rs:460-505 | A pending gate stays on its anchor or arms; while it watches unarmed, no head has reached the anchor and every check was silent |
| `LeaseGate.ArmsExactlyAtAnchor` | bin/outbe-chain/src/main.rs:235-285 | The gate is armed after a run if and only if some check, all earlier ones silent, saw a head at or above the anchor and found the anchor hash with a Ready admission at its height |
| `LeaseGate.WrongAnchorBreaks` | bin/outbe-chain/src/main.rs:254-284 | Anything else at the anchor ends the run with an error and an unarmed gate |
| `LeaseGate.ArmedStays` | bin/outbe-chain/src/main.rs:235-285 | Once armed, the gate stays armed for the rest of the run |
| `LeaseGate.ArmedJudgesEveryHead` | bin/outbe-chain/src/main.rs:425-505 | In every run that is armed after k checks, each later check of a readable head is judged at that head's own state and hash or fails; a rejection ends the guard with its reason, a failure breaks it, and anything else goes on armed |
| `LeaseGate.NoVerdictBelowAnchor` | bin/outbe-chain/src/main.rs:460-505 | With a finalized marker that never goes back, no verdict of a run is from a height below the anchor, before or after arming |
| `LeaseGate.RecoveringValidatorStartsExactlyWhen` | bin/outbe-chain/src/main.rs:2271-2294 | A recovering validator starts if and only if the head has reached the anchor, the anchor holds, and the head judged is Ready; so never unarmed |
| `LeaseGate.FullNodeMayStartPending` | bin/outbe-chain/src/main.rs:287-305 | A full node may start below its anchor, and then gives no verdict until it is reached |
| `UpgradeRuns.ReconcileKeeps` | crates/system/tee/src/node_host.rs:2372-2648 | On good files reconciliation succeeds, leaves good files at every crash point, and never replaces the manifest |
| `UpgradeRuns.PromoteKeeps` | crates/system/tee/src/node_host.rs:1358-1441 | An authorised promotion from Finalized succeeds, replaces the manifest once, and leaves good files at every crash point |
| `UpgradeRuns.AuthorizeExact` | crates/blockchain/node/src/tee_remote_session.rs:258-334 | A replacement is authorised exactly when the finalized registry binds the journaled intent, and then exactly the journaled one |
| `UpgradeRuns.ActKeeps` | bin/outbe-chain/src/main.rs:613-821 | One worker iteration keeps the files good at every crash point, on whatever reading of the journal it acts |
| `UpgradeRuns.OperateKeeps` | crates/blockchain/operator/src/tee/upgrade.rs:531-714 | Every operator step keeps the files good at every crash point and never writes Finalized or Promoted |
| `UpgradeRuns.RunKeeps` | bin/outbe-chain/src/main.rs:600-821 | Every interleaving of reads, iterations, operator steps and crashes keeps the files good |
| `UpgradeRuns.PromotionIsJournaled` | bin/outbe-chain/src/main.rs:613-821 | In every run: the manifest is replaced at most once and only with Finalized or Promoted journaled; Promoted means the candidate is committed; MissedCutoff means it never was |
| `UpgradeRuns.FinalIsFinal` | crates/blockchain/operator/src/tee/upgrade.rs:423-467 | Over every run Promoted and MissedCutoff are final, hence exclusive, the journal never goes back, and the upgrade keeps its identity |
| `UpgradeRuns.SubmittedIsPromotedExactlyWhen` | bin/outbe-chain/src/main.rs:613-783 | A submitted upgrade the registry binds is promoted by an iteration if and only if the iteration read Submitted, could read the successor status and found no other successor; the finalized height does not matter |
| `UpgradeRuns.RecoveryPromotes` | bin/outbe-chain/src/main.rs:613-821 | Cut off at any write, the promotion is finished by the next iteration of a restarted worker |
| `UpgradeCutoff.MissedExactlyWhen` | bin/outbe-chain/src/main.rs:613-821 | A run ends in MissedCutoff if and only if one of its events missed it: an iteration past the cutoff that acted on a reading from before Submitted or found no binding, or an operator's mark |
| `UpgradeCutoff.BoundIsMissedExactlyWhen` | bin/outbe-chain/src/main.rs:613-821 | Over every run in which the registry binds the journaled intent: the upgrade ends missed if and only if an iteration past the cutoff acts on a reading from before Submitted, stale or not, or an operator marks it missed |
| `UpgradeCutoff.StaleReadMissesCutoff` | bin/outbe-chain/src/main.rs:783-821 | Acting on a reading that Submitted overtook, the worker records a missed cutoff of a bound upgrade and never promotes it |
| `UpgradeCutoff.UnjournaledSubmissionMissesCutoff` | crates/blockchain/operator/src/tee/upgrade.rs:873-889 | So it does on a fresh reading if the operator died between sending the transaction and journaling it |
| `UpgradeCutoff.OperatorMissesCutoff` | crates/blockchain/operator/src/tee/upgrade.rs:788-821 | An operator's mark past the cutoff misses even a submitted upgrade, whatever the registry says |
| `UpgradeWorker.NodeDirectory.ReconcileState` | crates/system/tee/src/node_host.rs:2372-2648 | Reconciliation in place writes what the specification writes |
| `UpgradeWorker.NodeDirectory.PromoteCandidate` | crates/system/tee/src/node_host.rs:1358-1441 | Promotion in place writes what the specification writes, in its order |
| `UpgradeWorker.NodeDirectory.AuthorizeReplacement` | crates/blockchain/node/src/tee_remote_session.rs:258-334 | Authorisation in place is the specification's |
| `UpgradeWorker.NodeDirectory.Iterate` | bin/outbe-chain/src/main.rs:613-821 | One iteration in place is the specification's |
| `UpgradeWorker.NodeDirectory.RunWorker` | bin/outbe-chain/src/main.rs:600-821 | The worker loop ends as the specification's run, with good files and a journal that only moved forward |
| `YamlText.StripComment` | scripts/create_genesis.py:231-241 | The loop keeps a prefix of the line, cut at the first comment outside quotes |
| `YamlText.KeyEnd` | scripts/create_genesis.py:214-228 | The first colon that ends a key |
| `YamlParser.Mapping` | scripts/create_genesis.py:265-292 | On any line list the cursor strictly advances whenever a line belongs to the mapping, and success stops at the end or at an outdented line |
| `YamlParser.Items` | scripts/create_genesis.py:294-336 | The same for a list |
| `YamlParser.EveryLineIsConsumed` | scripts/create_genesis.py:251-340 | Success means that every line was consumed: the last check of the loader cannot fail |
| `YamlParser.LoadIsUnique` | scripts/create_genesis.py:251-340 | Whatever is accepted has unique keys in every mapping |
| `YamlParser.Parser.ParseMapping` | scripts/create_genesis.py:265-292 | The recursive descent on the shared cursor returns what the specification returns and leaves the cursor where it does, error for error |
| `YamlParser.Parser.ParseList` | scripts/create_genesis.py:294-336 | The same for a list |
| `YamlParser.LoadYaml` | scripts/create_genesis.py:251-340 | The loader is the specification on every text |
| `YamlPrinter.ScalarComesBack` | scripts/create_genesis.py:181-211 | Every one-line value is read back from its printing |
| `YamlRoundTrip.DocumentComesBack` | scripts/create_genesis.py:265-336 | On lines, the printed document of the subset is parsed back and nothing is left |
| `YamlRoundTrip.LinesComeBack` | scripts/create_genesis.py:231-262 | On text, the printed lines come back with their indents |
| `YamlRoundTrip.RoundTrip` | scripts/create_genesis.py:181-340 | Every document of the supported subset is loaded back from its printed text |
| `Calendar.DayZero` | scripts/seed_genesis.py:494-507 | Day 0 is 19700101 |
| `Calendar.CivilIsGregorian` | scripts/seed_genesis.py:494-507 | Every day count gives a valid Gregorian date, and the next day the next date |
| `Calendar.CivilCounts` | scripts/seed_genesis.py:494-507 | The day count of the date of a day is that day |
| `Calendar.CountIsCivil` | scripts/seed_genesis.py:494-507 | Every date from 1970 on is the date of its day count |
| `Calendar.KeysIncrease` | scripts/seed_genesis.py:494-507 | Keys are strictly increasing in days |
| `Calendar.FourDigitYears` | scripts/seed_genesis.py:375-381 | Day 2932896 is the last one the library can represent |
| `Calendar.DayKeyRoundTrip` | scripts/seed_genesis.py:375-381 | A day key gives its midnight back exactly for the days up to 2932896, and is refused beyond |
| `Calendar.TimestampRoundTrip` | scripts/seed_genesis.py:482-486 | The day key of a time leads back to that day's midnight, exactly on the same days |
| `KeccakSpec.OffsetsFollowTheWalk` | scripts/seed_genesis.py:30-64 | The rotation offsets are the triangular numbers along the walk of section 3.2.2 of FIPS 202 |
| `KeccakSpec.WalkVisits` | scripts/seed_genesis.py:30-64 | The walk visits every lane but the first, so it fixes every offset |
| `KeccakSpec.ConstantsFollowTheRegister` | scripts/seed_genesis.py:30-64 | The round constants are those the shift register of section 3.2.5 of FIPS 202 generates |
| `Keccak.ConstantBits` | scripts/seed_genesis.py:30-64 | Bit by bit, the table of constants that the rounds add is what algorithm 6 of section 3.2.5 of FIPS 202 sets |
| `Keccak.RotlBit` | scripts/seed_genesis.py:67-71 | Bit z of a rotated word is bit z minus the shift of the word |
| `Keccak.ThetaInPlace` | scripts/seed_genesis.py:74-104 | The column loops compute theta on every state and keep lanes in 64 bits |
| `Keccak.RhoPi` | scripts/seed_genesis.py:74-104 | The rotate-and-move loop computes pi after rho |
| `Keccak.ChiInPlace` | scripts/seed_genesis.py:74-104 | The row loop computes chi |
| `Keccak.Permute` | scripts/seed_genesis.py:74-104 | The 24 rounds in place, with the tabled offsets and constants, are the permutation of section 3.3 of FIPS 202 on every state |
| `KeccakSponge.PadIsPad10Star1` | scripts/seed_genesis.py:107-126 | On bits the appended bytes are exactly pad10*1 for every length, the one-byte 0x81 case included |
| `KeccakSponge.PaddedLength` | scripts/seed_genesis.py:107-126 | The padding is never empty and fills a multiple of 136 bytes |
| `KeccakSponge.PadRoundTrip` | scripts/seed_genesis.py:107-126 | Every message comes back from its padded form |
| `KeccakSponge.PadIsInjective` | scripts/seed_genesis.py:107-126 | No two messages share a padded form |
| `KeccakSponge.AddBlockInPlace` | scripts/seed_genesis.py:107-126 | Adding a block in place is the sponge's addition on bits |
| `KeccakSponge.Keccak256` | scripts/seed_genesis.py:107-126 | For every message the digest's bits are what the sponge squeezes from the message's bits |
| `Storage.StorageBuilder.Set` | scripts/seed_genesis.py:517-560 | A slot is set and nothing else |
| `Storage.WriteStorageBytes` | scripts/seed_genesis.py:568-586 | The writing loop leaves the entries of the specification |
| `Storage.BytesComeBack` | scripts/seed_genesis.py:568-586 | Byte strings of every length are read back exactly, and the low bit of the base word separates the short and long forms |
| `Storage.LastChunkIsPadded` | scripts/seed_genesis.py:568-586 | The last word of a long value ends in zeros |
| `Storage.OthersUntouched` | scripts/seed_genesis.py:563-586 | No other slot changes |
| `HexText.FullExactlyWhen` | scripts/seed_genesis.py:389-393 | A text accepted for its length is read to its full width if and only if it holds no white space, and to fewer bytes otherwise |
| `TeePolicy.PolicyBuffer` | scripts/seed_genesis.py:389-417 | Reading the texts, sorting and appending in loops gives the specification's buffer on every policy, refused exactly where a text, a length or the version is |
| `TeePolicy.FullWidthExactlyWhen` | scripts/seed_genesis.py:389-393 | The measurements of a list all have 32 bytes if and only if no text holds white space |
| `TeePolicy.SamePolicySameBuffer` | scripts/seed_genesis.py:396-417 | Policies that allow the same measurements, as often, from the same version have the same hashed buffer, whatever their texts and their order |
| `TeePolicy.BufferIsCanonical` | scripts/seed_genesis.py:396-417 | For policies whose texts hold no white space: same hashed buffer if and only if the signers and enclaves are equal as multisets and the minimum versions are equal |
| `TeePolicy.BlanksBreakCanonicity` | scripts/seed_genesis.py:389-417 | Two accepted policies that allow different signers, each with a measurement of 31 bytes, share the hashed buffer |
| `TeePolicy.BlanksOnOneSideBreakCanonicity` | scripts/seed_genesis.py:389-417 | So do a policy without any white space and one with it |
| `P2pAddress.Encode` | scripts/seed_genesis.py:636-693 | Every payload is at most 278 bytes |
| `P2pAddress.AddressComesBack` | scripts/seed_genesis.py:636-693 | Every accepted address is decoded from its payload |
| `P2pAddress.EncodingIsInjective` | scripts/seed_genesis.py:636-693 | Distinct addresses have distinct payloads |
| `P2pAddress.ResolvedIsOk` | scripts/seed_genesis.py:603-633 | What is parsed and validated is an acceptable address |
| `P2pAddress.PayloadDenotes` | scripts/seed_genesis.py:669-693 | Every configured value is refused or gets the payload of the address it denotes; the 512-byte check never refuses |
| `Oracle.IsoAddresses` | scripts/seed_genesis.py:739-745 | The ISO addresses are exactly the three-digit codes behind the marker |
| `Oracle.AssetFullExactlyWhen` | scripts/seed_genesis.py:702-723 | An accepted asset has 20 bytes if and only if its text has no white space inside, and fewer otherwise |
| `Oracle.PairBytesUnordered` | scripts/seed_genesis.py:726-736 | Two pairs of full addresses have the same bytes if and only if they are the same unordered pair |
| `Oracle.AcceptedExactlyWhen` | scripts/seed_genesis.py:1407-1450 | A pair list is accepted if and only if every entry resolves, has two assets with different bytes, is not ISO against native, and no pair's bytes repeat |
| `Oracle.SeedOracle` | scripts/seed_genesis.py:1387-1468 | Seeding in place writes the specification's entries, and a rejected list writes no slot |
| `Oracle.InverseExactlyWhen` | scripts/seed_genesis.py:1451-1468 | For every accepted list: the ordinal map and the by-index map are mutual inverses over 1 to the pair count if and only if no asset's text has white space inside |
| `Oracle.StoredPairsAreOriented` | scripts/seed_genesis.py:1407-1468 | Without white space every stored pair has two different assets, and native/ISO pairs are stored native first |
| `Oracle.BlanksBreakOrientation` | scripts/seed_genesis.py:1407-1468 | With it, an accepted list stores an ISO base against the native asset and its indexes are not inverse |
| `Gems.SeedGems` | scripts/seed_genesis.py:776-854 | Seeding in place accepts exactly the lists of settled gems whose every owner reads both as bytes and as a number, and writes the specification's entries |
| `Gems.FiledExactlyWhen` | scripts/seed_genesis.py:759-773 | A gem is filed under its owner's 20 bytes if and only if the owner's text holds no white space, and under fewer otherwise |
| `Gems.RecordsStand` | scripts/seed_genesis.py:776-854 | Every gem's record is stored as configured, under the owner the gem is counted for |
| `Gems.ListIsInverse` | scripts/seed_genesis.py:776-854 | The global list and the position map are inverse, and both stored lengths are the number of gems |
| `Gems.ConservedExactlyWhen` | scripts/seed_genesis.py:776-854 | Every owner's count is right and its index enumerates exactly its gems once, in order, if and only if no owner is spelled in two ways and none with white space |
| `Gems.SupplyIsConserved` | scripts/seed_genesis.py:776-854 | With one spelling per owner the stored counts, summed over the owners that have gems, each once, are the total supply and the list length |
| `Gems.PrefixBreaksConservation` | scripts/seed_genesis.py:776-854 | Two gems of one owner, once with and once without the prefix, are never conserved |
| `Gems.BlanksBreakConservation` | scripts/seed_genesis.py:299-303 | One gem of an owner with two blanks for two digits is accepted and not conserved |
| `Gems.SecondPrefixIsRefused` | scripts/seed_genesis.py:448-450 | An owner with the prefix twice reads as bytes but not as a number, and is refused |

## Left out

- The retention service, the finalized reader and the exporter are inputs: every answer they may give is allowed, and their own files are not modelled beyond the ACK that is retained for a job.
- Readiness and progress publishing, fatal-evidence files, payout driving, metrics, timeouts and task supervision around the loop.
- A digest mismatch found inside a refresh latches the fatal flag and the loop stops at its next outcome check, as in the code; the evidence it persists is not modelled.
- OcompRuns.EffectsAreEntitled: does not claim scan-at-target for FullNode computations, because the code lets a full node verify completed jobs while it replays history.
- OcompRuns.RestartFinishes: supposes nothing is quarantined, because a quarantined record is kept for inspection and stops startup in the code; fatal evidence persisted by an earlier process, which stops startup before that (`ocomp_exex.rs:475-487`), is not modelled either.
- OcompRuntime.Observer.Tick: takes compute and vote outcomes as one list in any order, which includes the order of the two channels.
- Materialization.Scheduling: supposes frames in height order with one head per height, as the finalized reader delivers them; reading the proposer and the certified bundle are inputs.
- LeaseGate.NoVerdictBelowAnchor: supposes that the finalized marker never goes back; while the gate is pending no verdict is given even without that (PendingIsSilent).
- The rejoin command, which promotes a candidate outside the upgrade journal; candidate, submission and relay staging appear only as the files an operator step leaves; journal generations, directory paths and file permissions.
- UpgradeCutoff.BoundIsMissedExactlyWhen: supposes the registry binds the journaled intent whenever an iteration reads it; without that, MissedExactlyWhen says which events miss.
- YamlPrinter.ScalarComesBack: integers are read from ASCII digits only, and keys are printed plain, never quoted; the limit of 4300 digits that newer interpreters put on `int`, beyond which a number is kept as text (`create_genesis.py:208-211`), is not modelled, here and in YamlRoundTrip.RoundTrip.
- Keccak-derived slots and the hash of the TEE policy are symbolic and injective outside the Keccak modules; a digest collision is not modelled.
- Storage.OthersUntouched: excludes slots in the value's own data area, which the write is meant to change.
- HexText.FullExactlyWhen: covers ASCII texts, white space included. Digits and blanks of other scripts are refused here and by `bytes.fromhex`; in an oracle asset the script would also strip such blanks and read such digits as an ISO code, which Oracle.AcceptedExactlyWhen leaves out.
- TeePolicy.BufferIsCanonical: its condition on the two texts is sufficient and not necessary, because white space does not make every two policies collide; that it can, even on one side alone, is shown by the two collision lemmas.
- P2pAddress.PayloadDenotes: takes the IP-literal parser of the library as a parameter that returns 4 or 16 bytes.
- Oracle.SeedOracle: covers the settings, the pair registry and the initial rates; feeder delegations, protected validators and the currency lists would only add single-slot writes.
- Oracle.InverseExactlyWhen: is stated for storage that holds no ordinal yet, as the seeder starts.
- Gems.SeedGems: says nothing of the entries when a gem is refused, because the script raises and the builder is dropped.
- The reducer's live-job count, the other seeders (validators, staking, rewards, tributes, governance), launch and service scripts, RPC, networking, and all signature cryptography.
