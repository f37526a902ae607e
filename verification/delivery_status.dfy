/** The delivery worker's status: which lanes are not delivering cleanly, and
    whether the gateway is blocked (internal/evidence/courier/worker.go, Status). */
module DeliveryStatus {
  import opened Base
  import opened CourierQueue
  import opened DurableQueues

  /** What the worker knows of a lane: whether its head is held, whether it waits
      for a handoff, and whether its last attempt failed. */
  datatype Lane = Lane(key: LaneKey, held: bool, waits: bool, failing: bool)

  datatype State = Clean | Held | WaitingHandoff | BackingOff

  function StateOf(l: Lane, pending: int): State {
    if pending == 0 then Clean
    else if l.held then Held
    else if l.waits then WaitingHandoff
    else if l.failing then BackingOff
    else Clean
  }

  /** One lane whose delivery is not clean. */
  datatype Entry = Entry(key: LaneKey, pending: int, state: State)

  predicate OneEach(lanes: seq<Lane>) {
    forall i, j | 0 <= i < j < |lanes| :: lanes[i].key != lanes[j].key
  }

  /** Something is queued, and every queued artifact is in a held lane. */
  ghost predicate AllHeld(log: seq<Record>, lanes: seq<Lane>) {
    log != [] && forall r | r in log :: exists l | l in lanes :: l.key == KeyOf(r.id) && l.held
  }

  // ---------------------------------------------------------------------
  // Counting the listed lanes
  // ---------------------------------------------------------------------

  /** The queued records whose lane is one of `keys`. */
  function CountIn(log: seq<Record>, keys: set<LaneKey>): nat {
    if log == [] then 0 else CountIn(Front(log), keys) + if KeyOf(Last(log).id) in keys then 1 else 0
  }

  lemma {:induction false} CountAdds(log: seq<Record>, keys: set<LaneKey>, key: LaneKey)
    requires key !in keys
    ensures CountIn(log, keys + {key}) == CountIn(log, keys) + Sum(log, OfLane(key), false)
  {
    if log != [] { CountAdds(Front(log), keys, key); }
  }

  lemma {:induction false} CountNone(log: seq<Record>)
    ensures CountIn(log, {}) == 0
  {
    if log != [] { CountNone(Front(log)); }
  }

  lemma {:induction false} CountAll(log: seq<Record>, keys: set<LaneKey>)
    ensures CountIn(log, keys) <= |log|
    ensures CountIn(log, keys) == |log| <==> forall r | r in log :: KeyOf(r.id) in keys
  {
    if log != [] {
      CountAll(Front(log), keys);
      assert log == Front(log) + [Last(log)];
      assert Last(log) in log;
    }
  }

  lemma {:induction false} SomethingQueued(log: seq<Record>, key: LaneKey)
    ensures Sum(log, OfLane(key), false) > 0 <==> exists r | r in log :: KeyOf(r.id) == key
  {
    if log != [] {
      SomethingQueued(Front(log), key);
      assert log == Front(log) + [Last(log)];
      assert Last(log) in log;
    }
  }

  // ---------------------------------------------------------------------
  // Status
  // ---------------------------------------------------------------------

  predicate Listed(lanes: seq<Lane>, i: nat, counts: map<LaneKey, int>, key: LaneKey)
    requires i <= |lanes|
  {
    exists j | 0 <= j < i :: lanes[j].key == key && StateOf(lanes[j], Get(counts, key)) != Clean
  }

  /** The lanes listed so far, and whether all of them are held. */
  ghost predicate Tallied(lanes: seq<Lane>, i: nat, counts: map<LaneKey, int>, keys: set<LaneKey>, heldAll: bool)
    requires i <= |lanes|
  {
    && (forall key :: key in keys <==> Listed(lanes, i, counts, key))
    && (heldAll <==> forall j | 0 <= j < i && StateOf(lanes[j], Get(counts, lanes[j].key)) != Clean :: lanes[j].held)
  }

  lemma TallyStep(lanes: seq<Lane>, i: nat, counts: map<LaneKey, int>, keys: set<LaneKey>, heldAll: bool)
    requires i < |lanes| && OneEach(lanes) && Tallied(lanes, i, counts, keys, heldAll)
    ensures var l := lanes[i];
            var state := StateOf(l, Get(counts, l.key));
            && l.key !in keys
            && (state == Clean ==> Tallied(lanes, i + 1, counts, keys, heldAll))
            && (state != Clean ==> Tallied(lanes, i + 1, counts, keys + {l.key}, heldAll && state == Held))
  {
    var l := lanes[i];
    forall key
      ensures Listed(lanes, i + 1, counts, key) <==>
              Listed(lanes, i, counts, key) || (key == l.key && StateOf(l, Get(counts, key)) != Clean)
    {
    }
  }

  /** Every queued record's lane listed, and every listed lane held, is every queued
      artifact in a held lane. */
  lemma BlockedExactly(log: seq<Record>, lanes: seq<Lane>, counts: map<LaneKey, int>, keys: set<LaneKey>, heldAll: bool)
    requires OneEach(lanes) && Tallied(lanes, |lanes|, counts, keys, heldAll)
    requires forall key :: Get(counts, key) == Sum(log, OfLane(key), false)
    ensures log != [] && CountIn(log, keys) == |log| && heldAll <==> AllHeld(log, lanes)
  {
    CountAll(log, keys);
    forall key ensures Get(counts, key) > 0 <==> exists r | r in log :: KeyOf(r.id) == key {
      SomethingQueued(log, key);
    }
    if AllHeld(log, lanes) {
      forall r | r in log ensures KeyOf(r.id) in keys {
        var l :| l in lanes && l.key == KeyOf(r.id) && l.held;
        var j :| 0 <= j < |lanes| && lanes[j] == l;
        assert Listed(lanes, |lanes|, counts, l.key);
      }
      forall j | 0 <= j < |lanes| && StateOf(lanes[j], Get(counts, lanes[j].key)) != Clean ensures lanes[j].held {
        var r :| r in log && KeyOf(r.id) == lanes[j].key;
        var l :| l in lanes && l.key == KeyOf(r.id) && l.held;
        var k :| 0 <= k < |lanes| && lanes[k] == l;
        assert k == j;
      }
    }
    if log != [] && CountIn(log, keys) == |log| && heldAll {
      forall r | r in log ensures exists l | l in lanes :: l.key == KeyOf(r.id) && l.held {
        assert Listed(lanes, |lanes|, counts, KeyOf(r.id));
        var j :| 0 <= j < |lanes| && lanes[j].key == KeyOf(r.id)
            && StateOf(lanes[j], Get(counts, KeyOf(r.id))) != Clean;
        assert lanes[j] in lanes;
      }
    }
  }

  function EntryOf(l: Lane, counts: map<LaneKey, int>): Entry {
    Entry(l.key, Get(counts, l.key), StateOf(l, Get(counts, l.key)))
  }

  /** One entry for each lane that is not clean, in the lanes' order. */
  function EntriesOf(lanes: seq<Lane>, counts: map<LaneKey, int>): seq<Entry> {
    if lanes == [] then []
    else
      var e := EntryOf(Last(lanes), counts);
      EntriesOf(Front(lanes), counts) + if e.state == Clean then [] else [e]
  }

  /** Which entries are listed, in the lanes' own terms: one for each lane with something
      queued that is held, or waits for a handoff, or failed its last attempt, and the
      first of those that it is. */
  lemma EntriesExactly(lanes: seq<Lane>, counts: map<LaneKey, int>, e: Entry)
    ensures e in EntriesOf(lanes, counts) <==>
              exists l | l in lanes ::
                && e.key == l.key && e.pending == Get(counts, l.key) != 0 && (l.held || l.waits || l.failing)
                && (e.state == Held <==> l.held) && (e.state == WaitingHandoff <==> !l.held && l.waits)
                && (e.state == BackingOff <==> !l.held && !l.waits)
  {
    EntriesAre(lanes, counts, e);
    hide EntriesOf;
  }

  lemma {:induction false} EntriesAre(lanes: seq<Lane>, counts: map<LaneKey, int>, e: Entry)
    ensures e in EntriesOf(lanes, counts) <==> e.state != Clean && exists l | l in lanes :: e == EntryOf(l, counts)
  {
    if lanes != [] {
      EntriesAre(Front(lanes), counts, e);
      assert lanes == Front(lanes) + [Last(lanes)];
      assert Last(lanes) in lanes;
    }
  }

  method Summarise(total: int, counts: map<LaneKey, int>, lanes: seq<Lane>, ghost log: seq<Record>)
    returns (blocked: bool, entries: seq<Entry>)
    requires OneEach(lanes) && total == |log| && (forall key :: Get(counts, key) == Sum(log, OfLane(key), false))
    ensures blocked <==> AllHeld(log, lanes)
    ensures entries == EntriesOf(lanes, counts)
  {
    hide AllHeld, Sum, CountIn, Get, OneEach;
    var listed, heldAll := 0, true;
    ghost var keys: set<LaneKey> := {};
    entries := [];
    CountNone(log);
    assert Tallied(lanes, 0, counts, keys, heldAll);
    hide Tallied;
    for i := 0 to |lanes|
      invariant Tallied(lanes, i, counts, keys, heldAll) && listed == CountIn(log, keys)
      invariant entries == EntriesOf(lanes[..i], counts)
    {
      TallyStep(lanes, i, counts, keys, heldAll);
      assert Front(lanes[..i + 1]) == lanes[..i];
      var entry := EntryOf(lanes[i], counts);
      if entry.state != Clean {
        CountAdds(log, keys, entry.key);
        entries := entries + [entry];
        listed := listed + entry.pending;
        heldAll := heldAll && entry.state == Held;
        keys := keys + {entry.key};
      }
    }
    assert lanes[..|lanes|] == lanes;
    blocked := total > 0 && listed == total && heldAll;
    BlockedExactly(log, lanes, counts, keys, heldAll);
  }

  /** The worker's lanes, in any order, against one snapshot of the queue's counts;
      a lane with queued artifacts may have no lane object yet. */
  method Status(queue: DurableQueue, lanes: seq<Lane>) returns (blocked: bool, entries: seq<Entry>)
    requires queue.Valid() && OneEach(lanes)
    ensures blocked <==> AllHeld(queue.View().content.log, lanes)
    ensures entries == EntriesOf(lanes, queue.laneItems)
  {
    ghost var log := LogOf(queue.order, queue.entries);
    assert LaneTallies(log, queue.laneItems, queue.laneBytes);
    forall key ensures Get(queue.laneItems, key) == Sum(log, OfLane(key), false) {
      assert Tallies(log, OfLane(key), At(queue.laneItems, key), At(queue.laneBytes, key));
    }
    ListedOnce(queue.order, queue.entries.Keys);
    LogAt(queue.order, queue.entries);
    hide Sum, LogOf, AllHeld, EntriesOf, OneEach;
    blocked, entries := Summarise(|queue.entries|, queue.laneItems, lanes, log);
  }
}
