/** The admission boundary: custody follows a durable commit
    (internal/evidence/courier/courier.go, Admit). */
module CourierAdmission {
  import opened Base
  import opened CourierQueue
  import CourierCapacity
  import opened CourierDirectory
  import opened CourierStore
  import opened DurableQueues
  import opened Refusal

  /** What admission asks of an artifact's routing projection and size. */
  predicate Routable(id: Id) {
    && Outbound(id.kind) && id.payload.device != "" && id.payload.size <= MAX_ARTIFACT_BYTES
    && (id.kind == DeliveryEnvelope ==> 0 < id.payload.localSeq <= MAX_SAFE_INTEGER)
  }

  lemma RoutableIs(id: Id)
    ensures Routable(id) <==>
              && (id.kind == DeliveryEnvelope || id.kind == AnchorRegistration || id.kind == Checkpoint)
              && id.payload.device != "" && id.payload.size <= MAX_ARTIFACT_BYTES
              && (id.kind == DeliveryEnvelope ==> 0 < id.payload.localSeq <= MAX_SAFE_INTEGER)
  {
  }

  /** An acknowledgement of custody: the ledger row, the exact bytes, and when they
      were queued. */
  datatype Custody = Custody(device: string, localSeq: int, digest: Payload, at: int)

  function CustodyOf(r: Record): Custody {
    Custody(r.id.payload.device, r.id.payload.localSeq, r.id.payload, r.at)
  }

  /** From a store whose records all have their files, every record an insert
      answers with has its file: whether the bytes are new or already queued. */
  lemma AnsweredIsDurable(s: CourierCapacity.Settings, st: Store, id: Id, now: int, wrote: Wrote)
    requires Sound(s, st) && Whole(st)
    ensures var st' := Step(s, st, Op.Insert(id, now, wrote));
            Whole(st') && (Find(st'.content.log, id).Some? ==> RecordName(id) in st'.disk)
  {
    var op := Op.Insert(id, now, wrote);
    WholeUnlessLost(s, st, op);
    hide Step, Sound, Whole;
    if Find(Step(s, st, op).content.log, id).Some? { WholeFinds(Step(s, st, op), id); }
  }

  /** A run after which custody is issued again with no file on disk: a retirement of
      the envelope is unlinked but neither confirmed nor restored, and the envelope
      is carried once more. The authority had accepted it by then. */
  lemma LostRecordReissuesCustody(s: CourierCapacity.Settings, id: Id, now: int, again: int, wrote: Wrote)
    requires Routable(id) && id.kind == DeliveryEnvelope && id.payload.size > 0
    requires CourierCapacity.Admission(s, [], Record(id, 1, now)) == CourierCapacity.Admitted
    ensures var run := LosingRun(id, now) + [Do(Op.Insert(id, again, wrote))];
            && Run(s, run).Serving?
            && Find(Run(s, run).store.content.log, id) == Some(Record(id, 1, now))
            && RecordName(id) !in Run(s, run).store.disk
  {
    hide CourierCapacity.Admission, Run, LosingRun;
    LostRecordStays(s, id, now);
    RunsOneMore(s, LosingRun(id, now), Op.Insert(id, again, wrote));
    assert Find([Record(id, 1, now)], id) == Some(Record(id, 1, now));
  }

  class Courier {
    const queue: DurableQueue
    const signs: bool

    constructor (queue: DurableQueue, signs: bool)
      ensures this.queue == queue && this.signs == signs
    {
      this.queue, this.signs := queue, signs;
    }

    /** Stores an artifact byte for byte, then issues custody for an envelope; a
        signing failure leaves the artifact queued and issues none. */
    method Admit(id: Id, now: int, wrote: Wrote, signed: bool) returns (isNew: bool, custody: Option<Custody>)
      requires queue.Valid()
      modifies queue
      ensures queue.Valid()
      ensures queue.View() ==
              if Routable(id) then Step(queue.settings, old(queue.View()), Op.Insert(id, now, wrote))
              else old(queue.View())
      ensures isNew <==> id !in old(queue.entries) && id in queue.entries
      ensures custody.Some? <==>
                && signs && signed && id.kind == DeliveryEnvelope && id.payload.device != ""
                && 0 < id.payload.localSeq <= MAX_SAFE_INTEGER && 0 < id.payload.size <= MAX_ARTIFACT_BYTES
                && id in queue.entries
      ensures custody.Some? ==>
                custody.value == Custody(id.payload.device, id.payload.localSeq, id.payload, queue.entries[id].at)
      ensures isNew <==>
                && (id.kind == DeliveryEnvelope || id.kind == AnchorRegistration || id.kind == Checkpoint)
                && id.payload.device != "" && 0 < id.payload.size <= MAX_ARTIFACT_BYTES
                && (id.kind == DeliveryEnvelope ==> 0 < id.payload.localSeq <= MAX_SAFE_INTEGER)
                && id !in old(queue.entries) && wrote.Committed?
                && CourierCapacity.Admission(queue.settings, old(queue.View()).content.log,
                                             Record(id, old(queue.nextSeq), now)) == CourierCapacity.Admitted
      ensures isNew ==> queue.entries[id] == Record(id, old(queue.nextSeq), now) && RecordName(id) in queue.disk
      ensures custody.Some? ==>
                (RecordName(id) in queue.disk <==> id !in old(queue.entries) || RecordName(id) in old(queue.disk))
      ensures custody.Some? && id in old(queue.entries) ==> custody.value == CustodyOf(old(queue.entries)[id])
    {
      RoutableIs(id);
      hide Step, Sound, Whole, LogOf, LaneTallies, DeviceTallies, CourierCapacity.Admission, Find, Routable;
      if !Routable(id) { return false, None; }
      var answer := queue.Insert(id, now, wrote);
      FindsEntry(queue.order, queue.entries, id);
      isNew := answer.NewlyQueued?;
      var queued := answer.NewlyQueued? || answer.AlreadyQueued?;
      if !queued || id.kind != DeliveryEnvelope || !signs || !signed { return isNew, None; }
      custody := Some(CustodyOf(answer.record));
    }
  }
}
