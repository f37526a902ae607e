/** One attempt of a delivery lane, step by step on the queue object
    (internal/evidence/courier/worker.go, deliverHead, hold, adoptDurableHold and
    releaseHeldUnless). */
module DeliveryLanes {
  import opened Base
  import opened CourierQueue
  import opened CourierDirectory
  import opened CourierStore
  import opened DurableQueues
  import CourierCapacity
  import CourierRuns
  import opened Refusal

  type Response = CourierRuns.Response

  /** How the attempt's writes end: the hold's, which returned artifact cannot be
      stored, if any, and the retirement's. */
  datatype Ends = Ends(hold: Wrote, unstored: Option<nat>, holdRemoved: Removed, backoffRemoved: Removed,
      removed: Removed, restored: Wrote)

  function RetireOp(id: Id, ends: Ends): Op {
    Retire(id, ends.holdRemoved, ends.backoffRemoved, ends.removed, ends.restored)
  }

  /** The returned artifacts an attempt stores. */
  function Stores(id: Id, response: Response, ends: Ends): seq<Id> {
    if !response.Accepted? || !CourierRuns.Acceptable(id, response.artifacts) then []
    else if ends.unstored.Some? && ends.unstored.value < |response.artifacts| then
      response.artifacts[..ends.unstored.value]
    else response.artifacts
  }

  /** The store after an answer to `id`: held on a terminal refusal, retired on an
      acceptance all of whose artifacts were stored, and otherwise untouched. */
  function Answered(s: CourierCapacity.Settings, st: Store, id: Id, response: Response, ends: Ends): Store {
    match response
    case Terminal(status, reason, now) => Step(s, st, SetHold(HoldFor(id, status, reason, now), ends.hold))
    case Accepted(artifacts) =>
      if CourierRuns.Acceptable(id, artifacts) && Stores(id, response, ends) == artifacts then
        Step(s, st, RetireOp(id, ends))
      else st
    case Retried => st
  }

  class DeliveryLane {
    const key: LaneKey
    const queue: DurableQueue
    var held: Option<Id>

    constructor (key: LaneKey, queue: DurableQueue)
      ensures this.key == key && this.queue == queue && held == None
    {
      this.key, this.queue, held := key, queue, None;
    }

    /** The lane's head, after adopting a hold an earlier process left on it. */
    method AdoptedHead() returns (head: Option<Record>)
      requires queue.Valid()
      modifies this`held
      ensures head == LaneHead(queue.View().content.log, key)
      ensures held == if head.Some? && old(held) != Some(head.value.id) && head.value.id in queue.holds
                      then Some(head.value.id) else old(held)
    {
      head := queue.PeekLane(key);
      hide LaneHead, LogOf, LaneTallies, DeviceTallies, Sound;
      if head.Some? && held != Some(head.value.id) && head.value.id in queue.holds { held := Some(head.value.id); }
    }

    /** Whether the head is the held artifact; a hold on anything else is released. */
    method ReleaseHeldUnless(head: Option<Record>) returns (holds: bool)
      modifies this`held
      ensures holds <==> head.Some? && old(held) == Some(head.value.id)
      ensures held == if holds then old(held) else None
    {
      holds := held.Some? && head.Some? && held.value == head.value.id;
      if !holds { held := None; }
    }

    /** Stores the returned artifacts in turn, until one fails. */
    method StoreAll(id: Id, artifacts: seq<Id>, ends: Ends) returns (stored: seq<Id>)
      requires CourierRuns.Acceptable(id, artifacts)
      ensures stored == Stores(id, CourierRuns.Accepted(artifacts), ends)
    {
      stored := [];
      for i := 0 to |artifacts|
        invariant stored == artifacts[..i]
        invariant ends.unstored.Some? ==> i <= ends.unstored.value
      {
        if ends.unstored == Some(i) { return; }
        stored := stored + [artifacts[i]];
      }
    }

    /** Sends the head unless it is held, and does with the answer what the policy
        says: hold it, store what it returned and retire it, or leave it queued. */
    method DeliverHead(response: Response, ends: Ends) returns (sent: Option<Record>, stored: seq<Id>, delivered: bool)
      requires queue.Valid()
      modifies this`held, queue
      ensures queue.Valid()
      ensures var head := LaneHead(old(queue.View()).content.log, key);
              var silent := head.None? || old(held) == Some(head.value.id) || head.value.id in old(queue.holds);
              && sent == (if silent then None else head)
              && (silent ==> queue.View() == old(queue.View()) && stored == [] && !delivered)
              && (!silent ==> queue.View() == Answered(queue.settings, old(queue.View()), head.value.id, response, ends)
                              && stored == Stores(head.value.id, response, ends))
              && held == if head.Some? && (silent || response.Terminal?) then Some(head.value.id) else None
      ensures delivered <==>
                && sent.Some? && response.Accepted? && CourierRuns.Answers(sent.value.id, response.artifacts)
                && stored == response.artifacts && sent.value.id !in queue.entries
      ensures sent.Some? && response.Accepted? && CourierRuns.Answers(sent.value.id, response.artifacts)
              && stored == response.artifacts && RecordName(sent.value.id) in old(queue.disk)
              && ends.holdRemoved == ends.backoffRemoved == ends.removed == Gone ==>
                delivered
    {
      hide Step, Sound, LaneHead, LogOf, LaneTallies, DeviceTallies, Find, HoldFor, CourierRuns.Acceptable,
          CourierRuns.Answers;
      sent, stored, delivered := None, [], false;
      var head := AdoptedHead();
      var holds := ReleaseHeldUnless(head);
      if holds || head.None? { return; }
      sent := head;
      var id := head.value.id;
      HeadIsQueued(queue.order, queue.entries, key);
      match response
      case Retried =>
      case Terminal(status, reason, now) =>
        held := Some(id);
        var _ := queue.Hold(HoldFor(id, status, reason, now), ends.hold);
      case Accepted(artifacts) =>
        var ok := CourierRuns.CheckAcceptance(id, artifacts);
        if !ok { return; }
        stored := StoreAll(id, artifacts, ends);
        if stored != artifacts { return; }
        delivered := queue.Remove(id, ends.holdRemoved, ends.backoffRemoved, ends.removed, ends.restored);
    }
  }

  lemma HeadIsQueued(order: seq<Id>, entries: map<Id, Record>, key: LaneKey)
    requires Lists(order, entries) && LaneHead(LogOf(order, entries), key).Some?
    ensures LaneHead(LogOf(order, entries), key).value.id in entries
  {
    CourierRuns.HeadInLane(LogOf(order, entries), key);
    LogHas(order, entries, LaneHead(LogOf(order, entries), key).value);
  }

  // ---------------------------------------------------------------------
  // An attempt is steps of a run
  // ---------------------------------------------------------------------

  /** How one write of the return queue went: whether it was admissible, when, and how
      it ended. */
  datatype Write = Write(admissible: bool, now: int, wrote: Wrote)

  /** The courier after those actions in turn; none where one was not possible. */
  ghost function Steps(s: CourierCapacity.Settings, c: CourierRuns.Courier, run: seq<CourierRuns.Action>)
    : Option<CourierRuns.Courier>
  {
    if run == [] then Some(c)
    else
      var before := Steps(s, c, Front(run));
      if before.Some? && CourierRuns.Enabled(s, before.value, Last(run))
      then Some(CourierRuns.Next(s, before.value, Last(run))) else None
  }

  function Stages(key: LaneKey, writes: seq<Write>): seq<CourierRuns.Action> {
    if writes == [] then []
    else
      var w := Last(writes);
      Stages(key, Front(writes)) + [CourierRuns.StoreNext(key, w.admissible, w.now, w.wrote)]
  }

  /** The actions of an attempt whose head is `id`, by its answer. */
  function Attempt(key: LaneKey, id: Id, response: Response, writes: seq<Write>, ends: Ends): seq<CourierRuns.Action> {
    [CourierRuns.Send(key, response)] +
    match response
    case Retried => []
    case Terminal(_, _, _) => [CourierRuns.PersistHold(key, ends.hold)]
    case Accepted(artifacts) =>
      if !CourierRuns.Acceptable(id, artifacts) then []
      else
        Stages(key, writes) +
        if Stores(id, response, ends) != artifacts then []
        else [CourierRuns.RetireHead(key, ends.holdRemoved, ends.backoffRemoved, ends.removed, ends.restored)]
  }

  /** The state after those writes, each of which stored its artifact; none where one
      did not. */
  ghost function Stowed(c: CourierRuns.Courier, key: LaneKey, writes: seq<Write>): Option<CourierRuns.Courier> {
    if writes == [] then Some(c)
    else
      var before, w := Stowed(c, key, Front(writes)), Last(writes);
      if before.Some? && CourierRuns.MayStore(before.value, key) then
        var after := CourierRuns.Stowing(before.value, key, w.admissible, w.now, w.wrote);
        if key in after.phases then Some(after) else None
      else None
  }

  /** The writes are those of an attempt that stores `stored` of the artifacts: one
      for each, and one more that failed where it did not store all. */
  ghost predicate Agrees(c: CourierRuns.Courier, key: LaneKey, artifacts: seq<Id>, stored: nat, writes: seq<Write>) {
    if stored == |artifacts| then |writes| == stored && Stowed(c, key, writes).Some?
    else |writes| == stored + 1 && Stowed(c, key, Front(writes)).Some? && Stowed(c, key, writes).None?
  }

  lemma {:induction false} StowsInTurn(s: CourierCapacity.Settings, c: CourierRuns.Courier, key: LaneKey,
      record: Record, artifacts: seq<Id>, writes: seq<Write>)
    requires key in c.phases && c.phases[key] == CourierRuns.Storing(record, artifacts, [])
             && Stowed(c, key, writes).Some?
    ensures var after := Stowed(c, key, writes).value;
            && Steps(s, c, Stages(key, writes)) == Some(after)
            && after.store == c.store && after.held == c.held && after.sent == c.sent && key in after.phases
            && after.phases[key].Storing? && after.phases[key].record == record
            && after.phases[key].artifacts == artifacts && |after.phases[key].returned| == |writes| <= |artifacts|
            && (forall i | 0 <= i < |writes| :: after.phases[key].returned[i].id == artifacts[i])
            && (forall e | e in after.phases[key].returned :: e in after.stored)
  {
    hide CourierRuns.Stowing, CourierRuns.MayStore;
    if writes != [] {
      var before := Stowed(c, key, Front(writes)).value;
      StowsInTurn(s, c, key, record, artifacts, Front(writes));
      StowsOnce(before, key, Last(writes));
      OneMoreStage(s, c, before, key, writes);
    }
  }

  lemma OneMoreStage(s: CourierCapacity.Settings, c: CourierRuns.Courier, before: CourierRuns.Courier, key: LaneKey,
      writes: seq<Write>)
    requires writes != [] && Steps(s, c, Stages(key, Front(writes))) == Some(before)
             && CourierRuns.MayStore(before, key)
    ensures var w := Last(writes);
            Steps(s, c, Stages(key, writes)) ==
            Some(CourierRuns.Stowing(before, key, w.admissible, w.now, w.wrote))
  {
    hide CourierRuns.Stowing, CourierRuns.MayStore;
    assert Front(Stages(key, writes)) == Stages(key, Front(writes));
  }

  lemma StowsOnce(c: CourierRuns.Courier, key: LaneKey, w: Write)
    requires CourierRuns.MayStore(c, key)
    ensures var after, p := CourierRuns.Stowing(c, key, w.admissible, w.now, w.wrote), c.phases[key];
            && after.store == c.store && after.held == c.held && after.sent == c.sent
            && p.Storing? && |p.returned| < |p.artifacts| && c.stored <= after.stored
            && (key in after.phases ==>
                  && after.phases[key].Storing? && after.phases[key].returned != []
                  && var e := Last(after.phases[key].returned);
                  && after.phases[key] == p.(returned := p.returned + [e])
                  && e in after.stored && e.id == p.artifacts[|p.returned|])
  {
    if key in CourierRuns.Stowing(c, key, w.admissible, w.now, w.wrote).phases {
      CourierRuns.StowedEntry(c, key, w.admissible, w.now, w.wrote);
    }
    hide CourierRuns.ReturnsAfter, Find;
  }

  lemma {:induction false} StepsOn(s: CourierCapacity.Settings, c: CourierRuns.Courier, run: seq<CourierRuns.Action>,
      more: seq<CourierRuns.Action>)
    requires Steps(s, c, run).Some?
    ensures Steps(s, c, run + more) == Steps(s, Steps(s, c, run).value, more)
  {
    hide CourierRuns.Next, CourierRuns.Enabled;
    if more == [] {
      assert run + more == run;
    } else {
      assert Front(run + more) == run + Front(more) && Last(run + more) == Last(more);
      StepsOn(s, c, run, Front(more));
    }
  }

  lemma OneStep(s: CourierCapacity.Settings, c: CourierRuns.Courier, a: CourierRuns.Action)
    requires CourierRuns.Enabled(s, c, a)
    ensures Steps(s, c, [a]) == Some(CourierRuns.Next(s, c, a))
  {
    hide CourierRuns.Next, CourierRuns.Enabled;
    assert Front([a]) == [];
  }

  /** Whether the head is not sent: there is none, or it is held. */
  predicate Silent(c: CourierRuns.Courier, key: LaneKey) {
    var head := LaneHead(c.store.content.log, key);
    head.None? || CourierRuns.HeldNow(c, key, head.value)
  }

  /** What an attempt does to the lane and its store, as DeliverHead does. */
  ghost predicate Attempted(s: CourierCapacity.Settings, c: CourierRuns.Courier, key: LaneKey, response: Response,
      ends: Ends, end: CourierRuns.Courier) {
    var head := LaneHead(c.store.content.log, key);
    && end.store == (if Silent(c, key) then c.store else Answered(s, c.store, head.value.id, response, ends))
    && end.sent == c.sent + (if Silent(c, key) then [] else [head.value])
    && end.held == (if head.Some? && (Silent(c, key) || response.Terminal?) then c.held[key := head.value.id]
                    else c.held - {key})
    && key !in end.phases
  }

  /** Every attempt is a run of the courier's: a send, and then by its answer nothing,
      a hold, or a store of each returned artifact up to the first that fails and,
      where none does, a retirement. What the run does to the store, to the hold in
      force and to what was sent is what the attempt does. */
  lemma AttemptIsARun(s: CourierCapacity.Settings, c: CourierRuns.Courier, key: LaneKey, response: Response,
      writes: seq<Write>, ends: Ends)
    requires key !in c.phases
    requires !Silent(c, key) && response.Accepted? ==>
               var id := LaneHead(c.store.content.log, key).value.id;
               CourierRuns.Acceptable(id, response.artifacts) ==>
                 Agrees(CourierRuns.Sending(c, key, response), key, response.artifacts, |Stores(id, response, ends)|,
                        writes)
    ensures var run := if Silent(c, key) then [CourierRuns.Send(key, response)]
                       else Attempt(key, LaneHead(c.store.content.log, key).value.id, response, writes, ends);
            Steps(s, c, run).Some? && Attempted(s, c, key, response, ends, Steps(s, c, run).value)
  {
    hide Agrees, Steps, LaneHead, CourierRuns.Acceptable, CourierRuns.Sending, CourierRuns.Next, CourierRuns.Enabled,
        Stores, Attempted, Answered;
    OneSend(s, c, key, response);
    assert [CourierRuns.Send(key, response)] + [] == [CourierRuns.Send(key, response)];
    if Silent(c, key) {
      SilentAttempt(s, c, key, response, ends);
    } else {
      match response
      case Retried => LeftAttempt(s, c, key, response, ends);
      case Terminal(_, _, _) => HeldAttempt(s, c, key, response, ends);
      case Accepted(artifacts) =>
        if CourierRuns.Acceptable(LaneHead(c.store.content.log, key).value.id, artifacts) {
          StoringAttempt(s, c, key, artifacts, writes, ends);
        } else {
          LeftAttempt(s, c, key, response, ends);
        }
    }
  }

  lemma OneSend(s: CourierCapacity.Settings, c: CourierRuns.Courier, key: LaneKey, response: Response)
    requires key !in c.phases
    ensures Steps(s, c, [CourierRuns.Send(key, response)]) == Some(CourierRuns.Sending(c, key, response))
  {
    hide CourierRuns.Sending, LaneHead;
    OneStep(s, c, CourierRuns.Send(key, response));
  }

  lemma SilentAttempt(s: CourierCapacity.Settings, c: CourierRuns.Courier, key: LaneKey, response: Response, ends: Ends)
    requires key !in c.phases && Silent(c, key)
    ensures Attempted(s, c, key, response, ends, CourierRuns.Sending(c, key, response))
  {
    hide LaneHead, CourierRuns.Acceptable, Answered;
  }

  /** An answer that leaves the head queued. */
  lemma LeftAttempt(s: CourierCapacity.Settings, c: CourierRuns.Courier, key: LaneKey, response: Response, ends: Ends)
    requires key !in c.phases && !Silent(c, key)
    requires response.Retried? || (response.Accepted? &&
               !CourierRuns.Acceptable(LaneHead(c.store.content.log, key).value.id, response.artifacts))
    ensures Attempted(s, c, key, response, ends, CourierRuns.Sending(c, key, response))
  {
    hide LaneHead, CourierRuns.Acceptable, Step;
  }

  lemma HeldAttempt(s: CourierCapacity.Settings, c: CourierRuns.Courier, key: LaneKey, response: Response, ends: Ends)
    requires key !in c.phases && !Silent(c, key) && response.Terminal?
    ensures var run := [CourierRuns.Send(key, response)] + [CourierRuns.PersistHold(key, ends.hold)];
            Steps(s, c, run).Some? && Attempted(s, c, key, response, ends, Steps(s, c, run).value)
  {
    hide LaneHead, CourierRuns.Acceptable, Step, Steps, HoldFor, CourierRuns.Minus, CourierRuns.Since;
    var sent, hold := CourierRuns.Sending(c, key, response), CourierRuns.PersistHold(key, ends.hold);
    OneSend(s, c, key, response);
    StepsOn(s, c, [CourierRuns.Send(key, response)], [hold]);
    OneStep(s, sent, hold);
  }

  lemma StoringAttempt(s: CourierCapacity.Settings, c: CourierRuns.Courier, key: LaneKey, artifacts: seq<Id>,
      writes: seq<Write>, ends: Ends)
    requires key !in c.phases && !Silent(c, key)
    requires var id, response := LaneHead(c.store.content.log, key).value.id, CourierRuns.Accepted(artifacts);
             && CourierRuns.Acceptable(id, artifacts)
             && Agrees(CourierRuns.Sending(c, key, response), key, artifacts, |Stores(id, response, ends)|, writes)
    ensures var id, response := LaneHead(c.store.content.log, key).value.id, CourierRuns.Accepted(artifacts);
            var run := Attempt(key, id, response, writes, ends);
            Steps(s, c, run).Some? && Attempted(s, c, key, response, ends, Steps(s, c, run).value)
  {
    var head, response := LaneHead(c.store.content.log, key).value, CourierRuns.Accepted(artifacts);
    var sent, send := CourierRuns.Sending(c, key, response), CourierRuns.Send(key, response);
    var stages := Stages(key, writes);
    var retire := CourierRuns.RetireHead(key, ends.holdRemoved, ends.backoffRemoved, ends.removed, ends.restored);
    SendStarts(c, key, artifacts);
    OneSend(s, c, key, response);
    StoresAll(head.id, artifacts, ends);
    hide Steps, Stages, Stowed, LaneHead, CourierRuns.Acceptable, CourierRuns.Sending, CourierRuns.Stowing, Step,
        Stores, CourierRuns.Minus, CourierRuns.Since;
    if Stores(head.id, response, ends) == artifacts {
      StowsInTurn(s, sent, key, head, artifacts, writes);
      var after := Stowed(sent, key, writes).value;
      RetireEnds(s, after, key, ends);
      StepsOn(s, c, [send], stages + [retire]);
      StepsOn(s, sent, stages, [retire]);
      OneStep(s, after, retire);
      assert Attempt(key, head.id, response, writes, ends) == [send] + (stages + [retire]);
    } else {
      StoreStops(s, sent, key, head, artifacts, writes);
      StepsOn(s, c, [send], stages);
      assert Attempt(key, head.id, response, writes, ends) == [send] + (stages + []);
      assert stages + [] == stages;
    }
  }

  lemma StoresAll(id: Id, artifacts: seq<Id>, ends: Ends)
    requires CourierRuns.Acceptable(id, artifacts)
    ensures var stored := Stores(id, CourierRuns.Accepted(artifacts), ends);
            |stored| <= |artifacts| && (stored == artifacts <==> |stored| == |artifacts|)
  {
  }

  /** A store that fails ends the attempt. */
  lemma StoreStops(s: CourierCapacity.Settings, c: CourierRuns.Courier, key: LaneKey, record: Record,
      artifacts: seq<Id>, writes: seq<Write>)
    requires key in c.phases && c.phases[key] == CourierRuns.Storing(record, artifacts, [])
    requires 0 < |writes| <= |artifacts| && Stowed(c, key, Front(writes)).Some? && Stowed(c, key, writes).None?
    ensures Steps(s, c, Stages(key, writes)).Some?
    ensures var end := Steps(s, c, Stages(key, writes)).value;
            end.store == c.store && end.held == c.held && end.sent == c.sent && key !in end.phases
  {
    var before := Stowed(c, key, Front(writes)).value;
    StowsInTurn(s, c, key, record, artifacts, Front(writes));
    assert CourierRuns.MayStore(before, key);
    hide Steps, Stages, CourierRuns.Stowing, CourierRuns.MayStore;
    StowsOnce(before, key, Last(writes));
    OneMoreStage(s, c, before, key, writes);
  }

  lemma SendStarts(c: CourierRuns.Courier, key: LaneKey, artifacts: seq<Id>)
    requires key !in c.phases && !Silent(c, key)
    requires CourierRuns.Acceptable(LaneHead(c.store.content.log, key).value.id, artifacts)
    ensures var sent, head := CourierRuns.Sending(c, key, CourierRuns.Accepted(artifacts)),
                              LaneHead(c.store.content.log, key).value;
            && sent.store == c.store && sent.held == c.held - {key} && sent.sent == c.sent + [head]
            && key in sent.phases
            && sent.phases[key] == CourierRuns.Storing(head, artifacts, [])
  {
    hide LaneHead, CourierRuns.Acceptable;
  }

  lemma RetireEnds(s: CourierCapacity.Settings, c: CourierRuns.Courier, key: LaneKey, ends: Ends)
    requires key in c.phases && c.phases[key].Storing? && |c.phases[key].returned| == |c.phases[key].artifacts|
    ensures var retire := CourierRuns.RetireHead(key, ends.holdRemoved, ends.backoffRemoved, ends.removed,
            ends.restored);
            && CourierRuns.Enabled(s, c, retire)
            && var c' := CourierRuns.Next(s, c, retire);
            && c'.store == Step(s, c.store, RetireOp(c.phases[key].record.id, ends))
            && c'.held == c.held && c'.sent == c.sent && key !in c'.phases
  {
    hide Step, CourierRuns.Minus, CourierRuns.Since;
  }
}
