/**
 When the finalized observer wakes a NOD materialization: at most one is in flight, and each
 is for an incomplete queue head, by the validator that represents the block's proposer.
 */
module Materialization {
  import opened Basics

  type Address = nat

  /** `MaterializationAttemptKeyV1`. */
  datatype Key = Key(sequence: nat, ordinal: nat)

  /** `NodMaterializationHeadV1`: the queue head and how far it is materialized. */
  datatype Head = Head(sequence: nat, ordinal: nat, count: nat, lastProgress: nat)

  /**
   What the finalized state at one frame says. `represented` is the validator the local sender
   acts for; `certified` tells whether the head's generation has a certified bundle;
   `spawnOk` whether the worker accepts the job.
   */
  datatype Frame = Frame(height: nat, proposer: Address, represented: Option<Address>, head: Option<Head>,
      certified: bool, spawnOk: bool)

  datatype Event = Finalized(frame: Frame) | Outcome(key: Key)

  datatype Spawn = Spawn(key: Key, frame: Frame)

  /** The scheduler's memory, with the history of what it spawned and what is still in flight. */
  datatype State = State(active: Option<Key>, attempts: map<Key, nat>, spawned: seq<Spawn>, inFlight: seq<Key>)

  datatype Config = Config(validator: bool, retryInterval: nat)

  function Saturating(a: nat): nat {
    if a <= U64_MAX then a else U64_MAX
  }

  function KeyOf(h: Head): Key {
    Key(h.sequence, h.ordinal)
  }

  /** `should_wake_nod_materializer`. */
  predicate Wakes(c: Config, f: Frame) {
    && c.validator && f.represented == Some(f.proposer) && c.retryInterval != 0
    && f.head.Some? && f.head.value.ordinal < f.head.value.count
    && (f.head.value.lastProgress == f.height || Saturating(f.head.value.lastProgress + c.retryInterval) <= f.height)
  }

  /** `bound_materialization_attempts`. */
  function Bounded(attempts: map<Key, nat>, current: Option<Key>): map<Key, nat> {
    map k | k in attempts && Some(k) == current :: attempts[k]
  }

  /** `reconcile_materialization`; the flag is false when it fails. */
  function Reconcile(c: Config, s: State, f: Frame): (State, bool) {
    if f.height == 0 then (s, true)
    else
      var bounded := s.(attempts := Bounded(s.attempts, if f.head.Some? then Some(KeyOf(f.head.value)) else None));
      if !Wakes(c, f) then (bounded, true)
      else
        var key := KeyOf(f.head.value);
        if s.active.Some? || (key in bounded.attempts && bounded.attempts[key] == f.height) then (bounded, true)
        else if !f.certified || !f.spawnOk then (bounded, false)
        else (State(Some(key), bounded.attempts[key := f.height], s.spawned + [Spawn(key, f)], s.inFlight + [key]),
          true)
  }

  /** Drop one occurrence of a key whose worker reported back. */
  function Removed(keys: seq<Key>, key: Key): seq<Key> {
    if keys == [] then []
    else if keys[0] == key then keys[1..]
    else [keys[0]] + Removed(keys[1..], key)
  }

  /** `handle_materialization`. */
  function Handle(s: State, key: Key): State {
    s.(active := if s.active == Some(key) then None else s.active, inFlight := Removed(s.inFlight, key))
  }

  function Step(c: Config, s: State, e: Event): State {
    match e
    case Finalized(f) => Reconcile(c, s, f).0
    case Outcome(key) => Handle(s, key)
  }

  function After(c: Config, events: seq<Event>): State {
    if events == [] then State(None, map[], [], [])
    else Step(c, After(c, events[..|events| - 1]), events[|events| - 1])
  }

  /** Frames come in height order, and a frame seen again carries the same state. */
  ghost predicate InOrder(events: seq<Event>) {
    forall m, n :: 0 <= m < n < |events| && events[m].Finalized? && events[n].Finalized? ==>
      && events[m].frame.height <= events[n].frame.height
      && (events[m].frame.height == events[n].frame.height ==> events[m].frame.head == events[n].frame.head)
  }

  // ----- the scheduler in place -----

  class Scheduler {
    const config: Config
    var active: Option<Key>
    var attempts: map<Key, nat>
    var spawned: seq<Spawn>
    var inFlight: seq<Key>

    ghost function View(): State
      reads this
    {
      State(active, attempts, spawned, inFlight)
    }

    constructor (config: Config)
      ensures this.config == config && View() == After(config, [])
    {
      this.config := config;
      active := None;
      attempts := map[];
      spawned := [];
      inFlight := [];
    }

    method ReconcileFrame(f: Frame) returns (ok: bool)
      modifies this
      ensures (View(), ok) == Reconcile(config, old(View()), f)
    {
      if f.height == 0 { return true; }
      var current := if f.head.Some? then Some(KeyOf(f.head.value)) else None;
      attempts := Bounded(attempts, current);
      if !Wakes(config, f) { return true; }
      var key := KeyOf(f.head.value);
      if active.Some? || (key in attempts && attempts[key] == f.height) { return true; }
      if !f.certified || !f.spawnOk { return false; }
      spawned := spawned + [Spawn(key, f)];
      inFlight := inFlight + [key];
      active := Some(key);
      attempts := attempts[key := f.height];
      return true;
    }

    method HandleOutcome(key: Key)
      modifies this
      ensures View() == Handle(old(View()), key)
    {
      if active == Some(key) { active := None; }
      inFlight := Removed(inFlight, key);
    }
  }

  // ----- over every run -----

  /** What every run keeps, up to the last finalized height it saw. */
  ghost predicate Good(c: Config, s: State, events: seq<Event>) {
    && s.inFlight == (if s.active.Some? then [s.active.value] else [])
    && |s.attempts| <= 1
    && (forall x :: 0 <= x < |s.spawned| ==> SpawnOk(c, s.spawned[x]) && Seen(events, s.spawned[x].frame))
    && (forall x, y :: 0 <= x < y < |s.spawned| ==> s.spawned[x].frame.height < s.spawned[y].frame.height)
    && (s.spawned != [] ==> Remembered(s, events))
  }

  predicate SpawnOk(c: Config, p: Spawn) {
    Wakes(c, p.frame) && p.frame.certified && p.frame.height != 0 && p.key == KeyOf(p.frame.head.value)
  }

  ghost predicate Seen(events: seq<Event>, f: Frame) {
    exists n :: 0 <= n < |events| && events[n] == Finalized(f)
  }

  /** The last attempt is remembered for as long as its height is the last one seen. */
  ghost predicate Remembered(s: State, events: seq<Event>)
    requires s.spawned != []
  {
    var last := s.spawned[|s.spawned| - 1];
    (forall n :: 0 <= n < |events| && events[n].Finalized? ==> events[n].frame.height <= last.frame.height) ==>
      last.key in s.attempts && s.attempts[last.key] == last.frame.height
  }

  lemma BoundedSize(attempts: map<Key, nat>, current: Option<Key>)
    ensures |Bounded(attempts, current)| <= 1
    ensures current.Some? ==> forall k :: k in Bounded(attempts, current) ==> k == current.value
  {
    var b := Bounded(attempts, current);
    if current.Some? {
      assert b.Keys <= {current.value};
      SubsetSize(b.Keys, {current.value});
    } else {
      assert b.Keys == {};
    }
    assert |b| == |b.Keys|;
  }

  lemma {:induction false} SubsetSize(a: set<Key>, b: set<Key>)
    requires a <= b
    ensures |a| <= |b|
    decreases |a|
  {
    if a != {} {
      var x :| x in a;
      SubsetSize(a - {x}, b - {x});
    }
  }

  /** A frame at the height of the last attempt shows the same head, whose attempt is remembered. */
  lemma SameHeightRemembered(c: Config, s: State, events: seq<Event>, f: Frame)
    requires Good(c, s, events) && InOrder(events + [Finalized(f)]) && s.spawned != []
    ensures var last := s.spawned[|s.spawned| - 1];
            && last.frame.height <= f.height
            && (last.frame.height == f.height ==>
                  f.head == last.frame.head && last.key in s.attempts && s.attempts[last.key] == f.height)
  {
    var last := s.spawned[|s.spawned| - 1];
    var all := events + [Finalized(f)];
    assert Seen(events, last.frame);
    var n :| 0 <= n < |events| && events[n] == Finalized(last.frame);
    assert all[n] == Finalized(last.frame) && all[|events|] == Finalized(f);
    if last.frame.height == f.height {
      forall m | 0 <= m < |events| && events[m].Finalized? ensures events[m].frame.height <= last.frame.height {
        assert all[m] == events[m];
      }
    }
  }

  lemma SeenMore(events: seq<Event>, e: Event, f: Frame)
    requires Seen(events, f)
    ensures Seen(events + [e], f)
  {
    var n :| 0 <= n < |events| && events[n] == Finalized(f);
    assert (events + [e])[n] == Finalized(f);
  }

  lemma FrameGood(c: Config, s: State, events: seq<Event>, f: Frame)
    requires Good(c, s, events) && InOrder(events + [Finalized(f)])
    ensures Good(c, Reconcile(c, s, f).0, events + [Finalized(f)])
  {
    var e := Finalized(f);
    var all := events + [e];
    var t := Reconcile(c, s, f).0;
    if s.spawned != [] { SameHeightRemembered(c, s, events, f); }
    BoundedSize(s.attempts, if f.head.Some? then Some(KeyOf(f.head.value)) else None);
    assert all[|events|] == e;
    assert Seen(all, f);
    forall x | 0 <= x < |s.spawned| ensures Seen(all, s.spawned[x].frame) { SeenMore(events, e, s.spawned[x].frame); }
    if t.spawned == s.spawned {
      if s.spawned != [] { StillRemembered(c, s, events, f); }
    } else {
      var key := KeyOf(f.head.value);
      var bounded := Bounded(s.attempts, Some(key));
      assert bounded[key := f.height].Keys == {key};
      assert |t.attempts| == |t.attempts.Keys|;
    }
  }

  lemma StillRemembered(c: Config, s: State, events: seq<Event>, f: Frame)
    requires Good(c, s, events) && InOrder(events + [Finalized(f)]) && s.spawned != []
    requires Reconcile(c, s, f).0.spawned == s.spawned
    ensures Remembered(Reconcile(c, s, f).0, events + [Finalized(f)])
  {
    SameHeightRemembered(c, s, events, f);
    var all := events + [Finalized(f)];
    var last := s.spawned[|s.spawned| - 1];
    assert all[|events|] == Finalized(f);
    assert SpawnOk(c, last);
  }

  lemma OutcomeGood(c: Config, s: State, events: seq<Event>, key: Key)
    requires Good(c, s, events)
    ensures Good(c, Handle(s, key), events + [Outcome(key)])
  {
    var e := Outcome(key);
    if s.active.Some? { assert s.inFlight[1..] == [] && Removed([], key) == []; }
    forall x | 0 <= x < |s.spawned| ensures Seen(events + [e], s.spawned[x].frame) {
      SeenMore(events, e, s.spawned[x].frame);
    }
    if s.spawned != [] {
      forall n | 0 <= n < |events| && events[n].Finalized? ensures (events + [e])[n] == events[n] {}
    }
  }

  lemma {:induction false} RunGood(c: Config, events: seq<Event>)
    requires InOrder(events)
    ensures Good(c, After(c, events), events)
    decreases |events|
  {
    if events != [] {
      var rest := events[..|events| - 1];
      RunGood(c, rest);
      assert events == rest + [events[|events| - 1]];
      match events[|events| - 1]
      case Finalized(f) => FrameGood(c, After(c, rest), rest, f);
      case Outcome(key) => OutcomeGood(c, After(c, rest), rest, key);
    }
  }

  /**
   In every run at most one materialization is in flight; attempts, of one head or of any, are
   at strictly increasing heights; the memory holds at most one entry; every spawn is for an
   incomplete head, by the validator representing the proposer of its block, after progress
   or after the retry interval.
   */
  lemma Scheduling(c: Config, events: seq<Event>)
    requires InOrder(events)
    ensures var s := After(c, events);
            && |s.inFlight| <= 1 && (s.inFlight != [] <==> s.active.Some?)
            && |s.attempts| <= 1
            && (forall x :: 0 <= x < |s.spawned| ==> Rightful(c, s.spawned[x]))
            && (forall x, y :: 0 <= x < y < |s.spawned| ==> s.spawned[x].frame.height < s.spawned[y].frame.height)
  {
    RunGood(c, events);
    var s := After(c, events);
    forall x | 0 <= x < |s.spawned| ensures Rightful(c, s.spawned[x]) {
      assert SpawnOk(c, s.spawned[x]);
    }
  }

  /** An incomplete head, taken by the validator that represents the proposer of its block. */
  predicate Rightful(c: Config, p: Spawn) {
    && c.validator && p.frame.represented == Some(p.frame.proposer)
    && p.frame.head.Some? && p.key == KeyOf(p.frame.head.value) && p.key.ordinal < p.frame.head.value.count
    && (p.frame.head.value.lastProgress == p.frame.height ||
      p.frame.head.value.lastProgress + c.retryInterval <= p.frame.height
        || p.frame.height >= U64_MAX)
  }

  /** A frame whose head is due is served unless a materialization is in flight or it was served already. */
  lemma DueHeadIsServed(c: Config, s: State, f: Frame)
    requires f.height != 0 && Wakes(c, f) && f.certified && f.spawnOk && s.active.None?
    requires KeyOf(f.head.value) in s.attempts ==> s.attempts[KeyOf(f.head.value)] != f.height
    ensures Reconcile(c, s, f).1 && Reconcile(c, s, f).0.active == Some(KeyOf(f.head.value))
    ensures Reconcile(c, s, f).0.spawned == s.spawned + [Spawn(KeyOf(f.head.value), f)]
  {
  }
}
