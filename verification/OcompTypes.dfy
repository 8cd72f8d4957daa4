/** Values shared by the OCOMP observer, its job reducer and its discovery spool. */
module OcompTypes {

  /** A 32-byte identity. Only equality and being zero matter. */
  type Hash = nat

  /** `EmbeddedNodePolicyV1`; the reducer's `EmbeddedOcompModeV1` mirrors it. */
  datatype Policy = Validator | FullNode

  /** `ProjectionCheckpoint`: one block identity. */
  datatype Checkpoint = Checkpoint(number: nat, hash: Hash)

  /** The job-id hash is taken injective, so a job id is its preimage. */
  datatype JobId = JobId(intent: Hash, blockHash: Hash, stateRoot: Hash)

  /** `EmbeddedTerminalReasonV1`. */
  datatype Reason = CompletedReason | ExpiredReason | FailedReason

  predicate Distinct<T(==)>(xs: seq<T>) {
    forall x, y :: 0 <= x < y < |xs| ==> xs[x] != xs[y]
  }

  lemma {:induction false} LeastOf(s: set<Hash>) returns (least: Hash)
    requires s != {}
    ensures least in s
    ensures forall x :: x in s ==> least <= x
    decreases |s|
  {
    var a :| a in s;
    least := a;
    var rest := s - {a};
    if rest != {} {
      var m := LeastOf(rest);
      if m < a { least := m; }
    }
    assert forall x :: x in s ==> x == a || x in rest;
  }

  lemma LeastExists(s: set<Hash>)
    requires s != {}
    ensures exists m :: m in s && forall x :: x in s ==> m <= x
  {
    var m := LeastOf(s);
  }

  function Least(s: set<Hash>): (m: Hash)
    requires s != {}
    ensures m in s
    ensures forall x :: x in s ==> m <= x
  {
    LeastExists(s);
    var m :| m in s && forall x :: x in s ==> m <= x;
    m
  }

  /** The keys of a `BTreeMap` in iteration order. */
  function SortedKeys(s: set<Hash>): (order: seq<Hash>)
    ensures forall x :: x in order <==> x in s
    ensures forall i, j :: 0 <= i < j < |order| ==> order[i] < order[j]
    decreases |s|
  {
    if s == {} then []
    else
      var m := Least(s);
      var rest := SortedKeys(s - {m});
      assert forall i :: 0 <= i < |rest| ==> rest[i] in rest;
      [m] + rest
  }
}
