/**
 The TEE lease gate: a node that restarts behind its durable admission anchor replays
 history without judging it, arms exactly at the anchor, and from then on judges every
 finalized head.
 */
module LeaseGate {
  import opened Basics

  type Hash = nat

  /** `LocalTeeAdmissionAnchorV1`. */
  datatype Anchor = Anchor(height: nat, hash: Hash)

  datatype Rejection = MissingBinding | EnclaveIdentityMismatch | ValidatorBindingMismatch | ValidatorJailed
      | Expired(validUntil: nat)

  /** `LocalTeeRuntimeAdmissionV1`. */
  datatype Admission = BootstrapPending | Ready(validUntil: nat) | Rejected(reason: Rejection)

  /** Reading the finalized marker. */
  datatype HeadRead = HeadFailed | NoHead | Head(number: nat, hash: Hash)

  /** Reading the exact header and state at a height. */
  datatype StateRead = StateFailed | StateAt(hash: Hash, admission: Admission)

  /** What one check reads: the marker, the marker again if the head is judged, and states by height. */
  datatype Observation = Observation(first: HeadRead, second: HeadRead, at: nat -> StateRead)

  datatype Outcome = Silent | Judged(height: nat, admission: Admission) | Failed

  /** `anchor_to_validate`. */
  function AnchorToValidate(gate: Option<Anchor>, height: nat): Option<Anchor> {
    if gate.Some? && gate.value.height <= height then gate else None
  }

  /** `validate_and_arm`: the gate afterwards, and whether it succeeded. */
  function Armed(gate: Option<Anchor>, hash: Hash, admission: Admission): (Option<Anchor>, bool) {
    if gate.None? then (gate, true)
    else if hash == gate.value.hash && admission.Ready? then (None, true)
    else (gate, false)
  }

  /** `read_finalized_local_tee_admission`. */
  function JudgeHead(head: HeadRead, at: nat -> StateRead): Outcome {
    match head
    case HeadFailed => Failed
    case NoHead => Silent
    case Head(number, hash) =>
      if number == 0 then Silent
      else match at(number)
        case StateFailed => Failed
        case StateAt(found, admission) => if found == hash then Judged(number, admission) else Failed
  }

  /** `read_gated_finalized_local_tee_admission`. */
  function Check(gate: Option<Anchor>, o: Observation): (Option<Anchor>, Outcome) {
    match o.first
    case HeadFailed => (gate, Failed)
    case NoHead => (gate, Silent)
    case Head(number, _) =>
      if number == 0 then (gate, Silent)
      else if AnchorToValidate(gate, number).None? then
        (gate, if gate.None? then JudgeHead(o.second, o.at) else Silent)
      else match o.at(gate.value.height)
        case StateFailed => (gate, Failed)
        case StateAt(hash, admission) =>
          var (after, ok) := Armed(gate, hash, admission);
          if !ok then (after, Failed)
          else (after, if number == gate.value.height then Judged(number, admission) else JudgeHead(o.second, o.at))
  }

  /** How the guard's loop ends. */
  datatype Verdict = Watching | Stopped(reason: Rejection) | Broken

  function AfterOutcome(o: Outcome): Verdict {
    match o
    case Silent => Watching
    case Failed => Broken
    case Judged(_, admission) => if admission.Rejected? then Stopped(admission.reason) else Watching
  }

  /** `run_tee_lease_guard_v1` over the checks it lives to make. */
  function Guard(gate: Option<Anchor>, obs: seq<Observation>): (Option<Anchor>, Verdict)
    decreases |obs|
  {
    if obs == [] then (gate, Watching)
    else
      var before := Guard(gate, obs[..|obs| - 1]);
      if before.1 != Watching then before
      else
        var (after, outcome) := Check(before.0, obs[|obs| - 1]);
        (after, AfterOutcome(outcome))
  }

  /** The gate updated in place, as the guard holds it. */
  class Gate {
    var pending: Option<Anchor>

    constructor (pending: Option<Anchor>)
      ensures this.pending == pending
    {
      this.pending := pending;
    }

    predicate IsArmed()
      reads this
    {
      pending.None?
    }

    method ValidateAndArm(hash: Hash, admission: Admission) returns (ok: bool)
      modifies this
      ensures (pending, ok) == Armed(old(pending), hash, admission)
      ensures old(IsArmed()) ==> IsArmed()
      ensures ok <==> IsArmed()
    {
      if pending.None? { return true; }
      if hash != pending.value.hash { return false; }
      match admission
      case Ready(_) => pending := None; return true;
      case BootstrapPending => return false;
      case Rejected(_) => return false;
    }

    method CheckHead(o: Observation) returns (outcome: Outcome)
      modifies this
      ensures (pending, outcome) == Check(old(pending), o)
    {
      if o.first.HeadFailed? { return Failed; }
      if o.first.NoHead? || o.first.number == 0 { return Silent; }
      var anchor := AnchorToValidate(pending, o.first.number);
      if anchor.None? {
        return if IsArmed() then JudgeHead(o.second, o.at) else Silent;
      }
      var state := o.at(anchor.value.height);
      if state.StateFailed? { return Failed; }
      var ok := ValidateAndArm(state.hash, state.admission);
      if !ok { return Failed; }
      if o.first.number == anchor.value.height { return Judged(o.first.number, state.admission); }
      return JudgeHead(o.second, o.at);
    }

    method RunGuard(obs: seq<Observation>) returns (verdict: Verdict)
      modifies this
      ensures (pending, verdict) == Guard(old(pending), obs)
    {
      verdict := Watching;
      var n := 0;
      while n < |obs| && verdict == Watching
        invariant n <= |obs|
        invariant (pending, verdict) == Guard(old(pending), obs[..n])
        invariant verdict != Watching ==> Guard(old(pending), obs) == (pending, verdict)
      {
        ghost var before := pending;
        var outcome := CheckHead(obs[n]);
        verdict := AfterOutcome(outcome);
        assert obs[..n + 1][..n] == obs[..n];
        n := n + 1;
        if verdict != Watching { StoppedStays(old(pending), obs, n); }
      }
      assert n == |obs| ==> obs[..n] == obs;
    }
  }

  // ----- over every run -----

  /** A guard that stopped stays stopped. */
  lemma {:induction false} StoppedStays(gate: Option<Anchor>, obs: seq<Observation>, n: nat)
    requires n <= |obs| && Guard(gate, obs[..n]).1 != Watching
    ensures Guard(gate, obs) == Guard(gate, obs[..n])
    decreases |obs|
  {
    if n == |obs| {
      assert obs[..n] == obs;
    } else {
      assert obs[..|obs| - 1][..n] == obs[..n];
      StoppedStays(gate, obs[..|obs| - 1], n);
    }
  }

  /** The finalized marker never goes back, within a check and between checks. */
  ghost predicate HeadsAdvance(obs: seq<Observation>) {
    && (forall n :: 0 <= n < |obs| ==> Later(obs[n].first, obs[n].second))
    && (forall m, n :: 0 <= m < n < |obs| ==> Later(obs[m].first, obs[n].first) && Later(obs[m].second, obs[n].first))
  }

  predicate Later(a: HeadRead, b: HeadRead) {
    a.Head? && b.Head? ==> a.number <= b.number
  }

  /** The head has reached the anchor. */
  predicate Reaches(h: HeadRead, a: Anchor) {
    h.Head? && h.number != 0 && a.height <= h.number
  }

  /** The exact anchor with a Ready admission is what the anchor's height holds. */
  predicate AnchorHolds(o: Observation, a: Anchor) {
    o.at(a.height).StateAt? && o.at(a.height).hash == a.hash && o.at(a.height).admission.Ready?
  }

  /** Below the anchor the guard is silent; at the first head that reaches it, it arms or breaks. */
  lemma {:induction false} PendingIsSilent(a: Anchor, obs: seq<Observation>)
    ensures Guard(Some(a), obs).0 == Some(a) || Guard(Some(a), obs).0.None?
    ensures Guard(Some(a), obs) == (Some(a), Watching) ==>
              forall n :: 0 <= n < |obs| ==> !Reaches(obs[n].first, a) && Check(Some(a), obs[n]) == (Some(a), Silent)
    decreases |obs|
  {
    if obs != [] { PendingIsSilent(a, obs[..|obs| - 1]); }
  }

  /**
   The gate arms exactly at the anchor: it is armed after a run if and only if some check,
   with every earlier one silent, saw a head at or above the anchor and found the exact
   anchor hash with a Ready admission at the anchor's height.
   */
  lemma {:induction false} ArmsExactlyAtAnchor(a: Anchor, obs: seq<Observation>)
    ensures Guard(Some(a), obs).0.None? <==>
              exists n :: 0 <= n < |obs| && ArmsAt(a, obs, n)
    decreases |obs|
  {
    if obs != [] {
      var rest := obs[..|obs| - 1];
      ArmsExactlyAtAnchor(a, rest);
      PendingIsSilent(a, rest);
      var before := Guard(Some(a), rest);
      forall n | 0 <= n < |rest| ensures ArmsAt(a, rest, n) <==> ArmsAt(a, obs, n) {
        assert rest[..n] == obs[..n];
      }
      var last := |obs| - 1;
      if before.0.None? {
        var n :| 0 <= n < |rest| && ArmsAt(a, rest, n);
        assert ArmsAt(a, obs, n);
      } else {
        assert ArmsAt(a, obs, last) <==>
               before.1 == Watching && Reaches(obs[last].first, a) && AnchorHolds(obs[last], a);
      }
    }
  }

  /** Check `n` arms the gate: everything before it was silent and unarmed. */
  predicate ArmsAt(a: Anchor, obs: seq<Observation>, n: nat)
    requires n < |obs|
  {
    Guard(Some(a), obs[..n]) == (Some(a), Watching) && Reaches(obs[n].first, a) && AnchorHolds(obs[n], a)
  }

  /** Anything else at the anchor is an error that leaves the gate unarmed for good. */
  lemma WrongAnchorBreaks(a: Anchor, obs: seq<Observation>, n: nat)
    requires n < |obs| && Guard(Some(a), obs[..n]) == (Some(a), Watching)
    requires Reaches(obs[n].first, a) && !AnchorHolds(obs[n], a)
    ensures Guard(Some(a), obs) == (Some(a), Broken)
  {
    assert obs[..n + 1][..n] == obs[..n];
    StoppedStays(Some(a), obs, n + 1);
  }

  /** Once armed, the gate stays armed. */
  lemma {:induction false} ArmedStays(gate: Option<Anchor>, obs: seq<Observation>, n: nat)
    requires n <= |obs| && Guard(gate, obs[..n]).0.None?
    ensures Guard(gate, obs).0.None?
    decreases |obs|
  {
    if n == |obs| {
      assert obs[..n] == obs;
    } else {
      assert obs[..|obs| - 1][..n] == obs[..n];
      ArmedStays(gate, obs[..|obs| - 1], n);
    }
  }

  /** The head's admission, read at the head's own height and under its own hash. */
  function JudgedOrFailed(o: Observation): Outcome
    requires o.second.Head?
  {
    match o.at(o.second.number)
    case StateFailed => Failed
    case StateAt(found, admission) => if found == o.second.hash then Judged(o.second.number, admission) else Failed
  }

  /**
   Once armed, every later head is judged: in every run that is armed after k checks and still
   watching before check n, with a readable head, check n is judged at that head's own state
   and hash or fails; a rejecting judgement ends the run there with its reason, a failure ends
   it as broken, and anything else goes on watching, armed.
   */
  lemma ArmedJudgesEveryHead(gate: Option<Anchor>, obs: seq<Observation>, k: nat, n: nat)
    requires k <= n < |obs| && Guard(gate, obs[..k]).0.None? && Guard(gate, obs[..n]).1 == Watching
    requires obs[n].first.Head? && obs[n].first.number != 0 && obs[n].second.Head? && obs[n].second.number != 0
    ensures Check(Guard(gate, obs[..n]).0, obs[n]) == (None, JudgedOrFailed(obs[n]))
    ensures Guard(gate, obs[..n + 1]).0.None?
    ensures match JudgedOrFailed(obs[n])
            case Failed => Guard(gate, obs) == (None, Broken)
            case Judged(_, admission) =>
              if admission.Rejected? then Guard(gate, obs) == (None, Stopped(admission.reason))
              else Guard(gate, obs[..n + 1]).1 == Watching
            case Silent => false
  {
    assert obs[..n][..k] == obs[..k];
    ArmedStays(gate, obs[..n], k);
    assert obs[..n + 1][..n] == obs[..n];
    if Guard(gate, obs[..n + 1]).1 != Watching { StoppedStays(gate, obs, n + 1); }
  }

  /** No verdict is ever given from a head below the anchor. */
  lemma NoVerdictBelowAnchor(a: Anchor, obs: seq<Observation>, n: nat)
    requires HeadsAdvance(obs) && n < |obs|
    requires Guard(Some(a), obs[..n]).1 == Watching
    ensures var outcome := Check(Guard(Some(a), obs[..n]).0, obs[n]).1;
            outcome.Judged? ==> a.height <= outcome.height
  {
    var before := obs[..n];
    PendingIsSilent(a, before);
    if Guard(Some(a), before).0.None? {
      ArmsExactlyAtAnchor(a, before);
      var k :| 0 <= k < |before| && ArmsAt(a, before, k);
      assert Reaches(obs[k].first, a) && Later(obs[k].first, obs[n].first) && Later(obs[n].first, obs[n].second);
    } else {
      assert Later(obs[n].first, obs[n].second);
    }
  }

  // ----- startup -----

  /** `tee_lease_admission_rejection`, and its stricter form for a validator that recovers. */
  predicate Refuses(admission: Admission, recovering: bool) {
    admission.Rejected? || (recovering && admission.BootstrapPending?)
  }

  /** The startup check: the gate handed to the guard, if the node may start. */
  function Startup(validator: bool, anchor: Option<Anchor>, o: Observation): Option<Option<Anchor>> {
    var (gate, outcome) := Check(anchor, o);
    if outcome.Failed? then None
    else if outcome.Judged? && Refuses(outcome.admission, validator && anchor.Some?) then None
    else if validator && gate.Some? then None
    else Some(gate)
  }

  /**
   When a node with a pending anchor starts. A validator starts exactly when the head has
   reached the anchor, the anchor holds, and the head it is judged at, if any, is Ready; so it
   never starts unarmed.
   */
  lemma RecoveringValidatorStartsExactlyWhen(a: Anchor, o: Observation)
    ensures Startup(true, Some(a), o).Some? <==>
              && Reaches(o.first, a) && AnchorHolds(o, a)
              && (o.first.number == a.height ||
                  (var judged := JudgeHead(o.second, o.at);
                   judged.Silent? || (judged.Judged? && judged.admission.Ready?)))
    ensures Startup(true, Some(a), o).Some? ==> Startup(true, Some(a), o).value.None?
  {
  }

  /** A full node may start behind its anchor, but then stays silent until it is reached. */
  lemma FullNodeMayStartPending(a: Anchor, o: Observation, obs: seq<Observation>)
    requires Startup(false, Some(a), o) == Some(Some(a))
    ensures !Reaches(o.first, a)
    ensures Guard(Some(a), obs).1 == Watching && (forall n :: 0 <= n < |obs| ==> !Reaches(obs[n].first, a)) ==>
              Guard(Some(a), obs).0 == Some(a)
  {
    PendingIsSilent(a, obs);
    if forall n :: 0 <= n < |obs| ==> !Reaches(obs[n].first, a) {
      ArmsExactlyAtAnchor(a, obs);
    }
  }
}
