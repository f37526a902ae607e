/** The return queue's publisher: it carries the head to its runtime, and retires
    or holds it on the runtime's acknowledgement
    (internal/evidence/courier/return_publisher.go). */
module ReturnPublishers {
  import opened Base
  import Decimal
  import opened CourierQueue
  import opened CourierCapacity
  import opened CourierDirectory
  import opened CourierStore
  import opened DurableQueues

  /** An authenticated acknowledgement, decoded. */
  datatype Ack = Ack(device: string, artifactType: string, digest: string, outcome: string, reason: string, at: int)

  const RETIRING_REASONS: set<string> :=
    {"malformed", "bad_authenticator", "binding_mismatch", "non_contiguous_range", "superseded", "restatement_conflict"}

  const HOLDING_REASONS: set<string> :=
    {"unrecognised_version", "wrong_purpose", "unknown_key", "retired_key", "unknown_sequence"}

  datatype Decision = Retires | Holds(recognised: bool) | NotADecision

  function Decide(outcome: string, reason: string): Decision {
    if outcome == "applied" then if reason == "" then Retires else NotADecision
    else if outcome == "refused" then
      if reason in RETIRING_REASONS then Retires else Holds(reason in HOLDING_REASONS)
    else NotADecision
  }

  /** The refusals after which an artifact is not carried again. */
  predicate Final(reason: string) {
    || reason == "malformed" || reason == "bad_authenticator" || reason == "binding_mismatch"
    || reason == "non_contiguous_range" || reason == "superseded" || reason == "restatement_conflict"
  }

  /** The decision in the acknowledgement's own terms: a refusal for any reason but
      those holds, whether or not its reason is known, and an application carries
      no reason. */
  lemma DecidesBy(outcome: string, reason: string)
    ensures Decide(outcome, reason) == Retires <==>
              (outcome == "applied" && reason == "") || (outcome == "refused" && Final(reason))
    ensures Decide(outcome, reason).Holds? <==> outcome == "refused" && !Final(reason)
    ensures Decide(outcome, reason).Holds? ==>
              (Decide(outcome, reason).recognised <==>
                 || reason == "unrecognised_version" || reason == "wrong_purpose" || reason == "unknown_key"
                 || reason == "retired_key" || reason == "unknown_sequence")
  {
  }

  /** Whether a queued artifact can be returned at all, and to which device. */
  predicate Returnable(id: Id) {
    id.payload.device != "" && id.kind in {DeliveryReceipt, EpochConfirmation, CustodyAcknowledgement}
  }

  /** The digest of an artifact's canonical bytes, none where it has none; every
      result holds of every such function. */
  type Digests = Payload -> Option<string>

  /** The acknowledgement arrived for the entry's device and names its device, type
      and canonical digest. */
  predicate Names(canon: Digests, r: Record, topic: string, ack: Ack) {
    && ack.device == topic && ack.at > 0
    && Returnable(r.id) && r.id.payload.device == topic
    && TypeName(r.id.kind) == ack.artifactType
    && canon(r.id.payload) == Some(ack.digest)
  }

  // ---------------------------------------------------------------------
  // The state
  // ---------------------------------------------------------------------

  datatype Hold = Hold(id: Id, device: string)

  /** The return queue; the entry held, if any; and the entry last carried and when. */
  datatype Publisher = Publisher(store: Store, held: Option<Hold>, lastID: Option<Id>, lastAt: int)

  function Head(p: Publisher): Option<Record> {
    if p.store.content.log == [] then None else Some(p.store.content.log[0])
  }

  /** The entry a pass of the loop sets out to carry. */
  function Carries(p: Publisher, now: int, retry: int): Option<Record> {
    var head := Head(p);
    if head.None? then None
    else if p.held.Some? && p.held.value.id == head.value.id then None
    else if p.lastID == Some(head.value.id) && now - p.lastAt < retry then None
    else if !Returnable(head.value.id) then None
    else head
  }

  datatype Faults = Faults(holdRemoved: Removed, backoffRemoved: Removed, removed: Removed, restored: Wrote)

  function RetireHead(id: Id, f: Faults): Op {
    Retire(id, f.holdRemoved, f.backoffRemoved, f.removed, f.restored)
  }

  /** Which entry an acknowledgement decides, and how. */
  function Decides(canon: Digests, p: Publisher, topic: string, ack: Ack): Decision {
    var head := Head(p);
    if head.None? || !Names(canon, head.value, topic, ack) then NotADecision else Decide(ack.outcome, ack.reason)
  }

  function Acknowledged(s: Settings, canon: Digests, p: Publisher, topic: string, ack: Ack, f: Faults): Publisher {
    var d := Decides(canon, p, topic, ack);
    if d == NotADecision then p
    else
      var head := Head(p).value;
      if d.Holds? then p.(held := Some(Hold(head.id, head.id.payload.device)))
      else
        var st := Step(s, p.store, RetireHead(head.id, f));
        var unheld := if p.held.Some? && p.held.value.id == head.id then None else p.held;
        p.(store := st, held := if Find(st.content.log, head.id).None? then unheld else p.held)
  }

  function StateChanged(p: Publisher, device: string): Publisher {
    if p.held.Some? && p.held.value.device == device then p.(held := None) else p
  }

  // ---------------------------------------------------------------------
  // Runs
  // ---------------------------------------------------------------------

  /** A handoff of an outbound artifact: newly admitted, or refused by a full
      share. */
  datatype Handoff = Admitted | QueueFull

  /** Where a pass of the loop stands: past its check of the hold, and signing; or
      with its publish begun. */
  datatype Flight = Grounded | Checked(r: Record) | Begun(r: Record)

  /** What a process may be in the middle of when it dies. */
  datatype Work = Queueing(id: Id, now: int, wrote: Wrote) | Acking(topic: string, ack: Ack, faults: Faults)

  /** `Pass` checks the head, `Publishes` begins the publish and `Returns` is its
      end; `GivesUp` is a pass that could not sign or encode. Acknowledgements and
      handoffs come in between. */
  datatype Event =
    | Queue(id: Id, now: int, wrote: Wrote)
    | Pass(now: int)
    | Publishes
    | GivesUp
    | Returns(now: int, ok: bool)
    | Acks(topic: string, ack: Ack, faults: Faults)
    | HandedOff(device: string, kind: Handoff)
    | Crashed(during: Work, at: Disk)

  /** An acknowledgement that decided to retire the entry it found at the head. */
  datatype Retiring = Retiring(r: Record, topic: string, ack: Ack)

  /** The publisher and its one pass; and over every process every entry that was
      ever queued, every publish begun, and the acknowledgements that decided to
      retire an entry since it was last queued. */
  datatype Trace = Trace(
    p: Publisher,
    flight: Flight,
    queued: set<Record>,
    published: seq<Record>,
    acks: set<Retiring>)

  function Records(log: seq<Record>): set<Record> {
    set r | r in log
  }

  /** What an acknowledgement decides to retire. */
  function Deciding(canon: Digests, p: Publisher, topic: string, ack: Ack): set<Retiring> {
    if Decides(canon, p, topic, ack) == Retires then {Retiring(Head(p).value, topic, ack)} else {}
  }

  /** What the process was deciding to retire when it died, if anything. */
  function Received(canon: Digests, p: Publisher, w: Work): set<Retiring> {
    if w.Acking? then Deciding(canon, p, w.topic, w.ack) else {}
  }

  /** What is left of the history when the queue moves on: an entry newly queued has
      none. */
  function Since(acks: set<Retiring>, log: seq<Record>, log': seq<Record>): set<Retiring> {
    set x | x in acks && (x.r in log || x.r !in log')
  }

  /** The operation on the queue that such work is. */
  function OpOf(canon: Digests, p: Publisher, w: Work): Option<Op> {
    match w
    case Queueing(id, now, wrote) => Some(Insert(id, now, wrote))
    case Acking(topic, ack, f) =>
      if Decides(canon, p, topic, ack) == Retires then Some(RetireHead(Head(p).value.id, f)) else None
  }

  /** A process that dies does so at a crash point of its work, and the next one
      loads what is there. */
  ghost predicate Enabled(s: Settings, canon: Digests, t: Trace, e: Event) {
    e.Crashed? ==>
      && OpOf(canon, t.p, e.during).Some?
      && Acted(s, t.p.store, Crash(OpOf(canon, t.p, e.during).value, e.at)).Serving?
  }

  ghost function After(s: Settings, canon: Digests, retry: int, t: Trace, e: Event): Trace
    requires Enabled(s, canon, t, e)
  {
    match e
    case Queue(id, now, wrote) =>
      var st := Step(s, t.p.store, Insert(id, now, wrote));
      t.(p := t.p.(store := st), queued := t.queued + Records(st.content.log),
         acks := Since(t.acks, t.p.store.content.log, st.content.log))
    case Pass(now) =>
      var r := Carries(t.p, now, retry);
      if t.flight == Grounded && r.Some? then t.(flight := Checked(r.value)) else t
    case Publishes =>
      if t.flight.Checked? then t.(flight := Begun(t.flight.r), published := t.published + [t.flight.r]) else t
    case GivesUp => if t.flight.Checked? then t.(flight := Grounded) else t
    case Returns(now, ok) =>
      if !t.flight.Begun? then t
      else if ok then t.(flight := Grounded, p := t.p.(lastID := Some(t.flight.r.id), lastAt := now))
      else t.(flight := Grounded)
    case Acks(topic, ack, f) =>
      t.(p := Acknowledged(s, canon, t.p, topic, ack, f), acks := t.acks + Deciding(canon, t.p, topic, ack))
    case HandedOff(device, kind) => if kind == Handoff.Admitted then t.(p := StateChanged(t.p, device)) else t
    case Crashed(during, at) =>
      var st := Acted(s, t.p.store, Crash(OpOf(canon, t.p, during).value, at)).store;
      Trace(Publisher(st, None, None, 0), Grounded, t.queued + Records(st.content.log), t.published,
            Since(t.acks + Received(canon, t.p, during), t.p.store.content.log, st.content.log))
  }

  /** Processes one after another, from the queue the first opened; none where an
      event was not possible. */
  ghost function Ran(s: Settings, canon: Digests, retry: int, start: Store, run: seq<Event>): Option<Trace> {
    if run == [] then Some(Trace(Publisher(start, None, None, 0), Grounded, Records(start.content.log), [], {}))
    else
      var before := Ran(s, canon, retry, start, Front(run));
      if before.Some? && Enabled(s, canon, before.value, Last(run)) then
        Some(After(s, canon, retry, before.value, Last(run)))
      else None
  }

  /** That entry was at the head when an acknowledgement came that names it and
      decides to retire it. */
  ghost predicate AckedAway(canon: Digests, acks: set<Retiring>, r: Record) {
    exists topic, ack :: Retiring(r, topic, ack) in acks && Names(canon, r, topic, ack)
        && Decide(ack.outcome, ack.reason) == Retires
  }

  ghost predicate HeldIsHead(p: Publisher) {
    p.held.Some? ==>
          Head(p).Some? && Head(p).value.id == p.held.value.id && Head(p).value.id.payload.device == p.held.value.device
  }

  /** What was queued is queued, or was acknowledged away; and an entry without its
      file was acknowledged away. */
  ghost predicate Accounted(canon: Digests, st: Store, queued: set<Record>, acks: set<Retiring>) {
    && (forall r | r in st.content.log :: r in queued)
    && (forall r | r in queued :: r in st.content.log || AckedAway(canon, acks, r))
    && (forall r | r in st.content.log :: RecordName(r.id) in st.disk || AckedAway(canon, acks, r))
  }

  ghost predicate Good(s: Settings, canon: Digests, t: Trace) {
    Sound(s, t.p.store) && HeldIsHead(t.p) && Accounted(canon, t.p.store, t.queued, t.acks)
  }

  // ---------------------------------------------------------------------
  // What every event keeps
  // ---------------------------------------------------------------------

  /** Inserting leaves the head where it is; retiring another leaves it too. */
  lemma HeadStaysPut(s: Settings, st: Store, id: Id, now: int, wrote: Wrote)
    requires st.content.log != []
    ensures var log := Step(s, st, Insert(id, now, wrote)).content.log;
            log != [] && log[0] == st.content.log[0]
  {
    hide Admission, Find;
  }

  lemma InsertStep(s: Settings, st: Store, id: Id, now: int, wrote: Wrote)
    requires Sound(s, st)
    ensures var st' := Step(s, st, Insert(id, now, wrote));
            && Sound(s, st') && st'.next >= st.next
            && (forall r | r in st.content.log :: r in st'.content.log)
            && (forall r | r in st'.content.log :: r.seqno < st'.next)
  {
    StepKeeps(s, st, Insert(id, now, wrote));
    hide Admission, Find, ContentOK, Mirrors;
  }

  lemma NextAfterRetire(s: Settings, st: Store, op: Op)
    requires op.Retire?
    ensures Step(s, st, op).next == st.next
  {
    hide Find, Without;
  }

  lemma RetireStep(s: Settings, st: Store, op: Op)
    requires Sound(s, st) && op.Retire?
    ensures var st' := Step(s, st, op);
            && Sound(s, st') && st'.next == st.next
            && (st'.content.log == st.content.log || st'.content.log == Without(st.content.log, op.id))
  {
    StepKeeps(s, st, op);
    LogAfter(s, st, op);
    NextAfterRetire(s, st, op);
    hide Sound, Step, CrashPoints;
  }

  lemma FoundAfterRetire(log: seq<Record>, head: Record)
    requires log != [] && head == log[0]
    ensures Find(log, head.id).Some? && Find(Without(log, head.id), head.id).None?
  {
    assert head in log;
    QueuedIn(log, head);
    FindsQueued(log, head.id);
    FindsQueued(Without(log, head.id), head.id);
    if Find(Without(log, head.id), head.id).Some?
        { WithoutHas(log, head.id, Find(Without(log, head.id), head.id).value); }
  }

  lemma AckKeepsHold(s: Settings, canon: Digests, p: Publisher, topic: string, ack: Ack, f: Faults)
    requires Sound(s, p.store) && HeldIsHead(p)
    ensures var p' := Acknowledged(s, canon, p, topic, ack, f);
            Sound(s, p'.store) && HeldIsHead(p') && p'.store.next == p.store.next
  {
    if Decides(canon, p, topic, ack) == Retires {
      var head := Head(p).value;
      RetireStep(s, p.store, RetireHead(head.id, f));
      FoundAfterRetire(p.store.content.log, head);
    }
    hide Sound, Step, Find, Without, Names, Decide;
  }

  lemma AckAdds(s: Settings, canon: Digests, p: Publisher, topic: string, ack: Ack, f: Faults, r: Record)
    requires Sound(s, p.store) && r in Acknowledged(s, canon, p, topic, ack, f).store.content.log
    ensures r in p.store.content.log
  {
    if Decides(canon, p, topic, ack) == Retires {
      var head := Head(p).value;
      RetireStep(s, p.store, RetireHead(head.id, f));
      WithoutHas(p.store.content.log, head.id, r);
    }
    hide Step, Find, Without, Names, Decide, Sound;
  }

  lemma MoreAcks(canon: Digests, acks: set<Retiring>, acks': set<Retiring>, r: Record)
    requires AckedAway(canon, acks, r) && acks <= acks'
    ensures AckedAway(canon, acks', r)
  {
    var topic, ack :| Retiring(r, topic, ack) in acks && Names(canon, r, topic, ack)
        && Decide(ack.outcome, ack.reason) == Retires;
    assert Retiring(r, topic, ack) in acks';
  }

  lemma SinceKeeps(canon: Digests, acks: set<Retiring>, log: seq<Record>, log': seq<Record>, r: Record)
    requires AckedAway(canon, acks, r) && (r in log || r !in log')
    ensures AckedAway(canon, Since(acks, log, log'), r)
  {
    var topic, ack :| Retiring(r, topic, ack) in acks && Names(canon, r, topic, ack)
        && Decide(ack.outcome, ack.reason) == Retires;
    assert Retiring(r, topic, ack) in Since(acks, log, log');
  }

  /** The operation retires the head only on a retiring acknowledgement of it. */
  ghost predicate RetiresAcked(canon: Digests, st: Store, op: Op, acks: set<Retiring>) {
    op.Retire? ==> forall r | r in st.content.log && r.id == op.id :: AckedAway(canon, acks, r)
  }

  lemma StaysAccounted(s: Settings, canon: Digests, st: Store, a: CourierStore.Action, acks: set<Retiring>,
                       r: Record)
    requires Sound(s, st) && Acted(s, st, a).Serving? && RetiresAcked(canon, st, a.op, acks)
    requires r in st.content.log && (RecordName(r.id) in st.disk || AckedAway(canon, acks, r))
    ensures Kept(Acted(s, st, a).store, r) || AckedAway(canon, acks, r)
  {
    hide AckedAway, Sound, Acted;
    if RecordName(r.id) in st.disk && !(a.op.Retire? && a.op.id == r.id) { StaysKept(s, st, a, r); }
  }

  /** Any operation of the publisher's on its queue, and a crash during one, keeps
      every entry queued or acknowledged away. */
  lemma OpKeepsAccount(s: Settings, canon: Digests, st: Store, a: CourierStore.Action, queued: set<Record>,
      acks: set<Retiring>, acks': set<Retiring>)
    requires Sound(s, st) && Acted(s, st, a).Serving? && Accounted(canon, st, queued, acks) && acks <= acks'
    requires RetiresAcked(canon, st, a.op, acks')
    ensures var st' := Acted(s, st, a).store;
            Accounted(canon, st', queued + Records(st'.content.log), Since(acks', st.content.log, st'.content.log))
  {
    hide AckedAway, Sound, Acted, RetiresAcked, Since;
    var st' := Acted(s, st, a).store;
    var log, log' := st.content.log, st'.content.log;
    forall r | AckedAway(canon, acks, r) ensures AckedAway(canon, acks', r) { MoreAcks(canon, acks, acks', r); }
    forall r | AckedAway(canon, acks', r) && (r in log || r !in log')
      ensures AckedAway(canon, Since(acks', log, log'), r)
    {
      SinceKeeps(canon, acks', log, log', r);
    }
    forall r | r in log ensures Kept(st', r) || AckedAway(canon, acks', r) {
      StaysAccounted(s, canon, st, a, acks', r);
    }
    forall r | r in log' && r !in log ensures RecordName(r.id) in st'.disk {
      NewHasFile(s, st, a, r);
    }
  }

  lemma RetiringAck(s: Settings, canon: Digests, p: Publisher, topic: string, ack: Ack, f: Faults,
                    acks: set<Retiring>)
    requires Sound(s, p.store) && Decides(canon, p, topic, ack) == Retires && Deciding(canon, p, topic, ack) <= acks
    ensures RetiresAcked(canon, p.store, RetireHead(Head(p).value.id, f), acks)
  {
    var head := Head(p).value;
    assert head in p.store.content.log;
    forall r | r in p.store.content.log && r.id == head.id ensures AckedAway(canon, acks, r) {
      SameRecord(p.store.content.log, r, head);
      assert Retiring(r, topic, ack) in Deciding(canon, p, topic, ack) && Names(canon, r, topic, ack);
    }
  }

  lemma AcksKeep(s: Settings, canon: Digests, t: Trace, topic: string, ack: Ack, f: Faults)
    requires Good(s, canon, t)
    ensures var p, acks := Acknowledged(s, canon, t.p, topic, ack, f), t.acks + Deciding(canon, t.p, topic, ack);
            Sound(s, p.store) && HeldIsHead(p) && Accounted(canon, p.store, t.queued, acks)
  {
    var acks := t.acks + Deciding(canon, t.p, topic, ack);
    AckKeepsHold(s, canon, t.p, topic, ack, f);
    if Decides(canon, t.p, topic, ack) == Retires {
      var op := RetireHead(Head(t.p).value.id, f);
      RetiringAck(s, canon, t.p, topic, ack, f, acks);
      assert Acted(s, t.p.store, Do(op)) == Serving(Step(s, t.p.store, op));
      var st' := Step(s, t.p.store, op);
      hide AckedAway, Sound, HeldIsHead, Names, Decide, RetiresAcked, Step, Deciding;
      OpKeepsAccount(s, canon, t.p.store, Do(op), t.queued, t.acks, acks);
      forall r | r in st'.content.log ensures r in t.p.store.content.log && r in t.queued {
        AckAdds(s, canon, t.p, topic, ack, f, r);
      }
      assert t.queued + Records(st'.content.log) == t.queued;
      assert Since(acks, t.p.store.content.log, st'.content.log) == acks;
    } else {
      hide AckedAway, Sound, HeldIsHead, Names, Decide, Step;
      SameAccount(canon, t.p.store, t.queued, t.acks, acks);
    }
  }

  lemma SameAccount(canon: Digests, st: Store, queued: set<Record>, acks: set<Retiring>, acks': set<Retiring>)
    requires Accounted(canon, st, queued, acks) && acks <= acks'
    ensures Accounted(canon, st, queued, acks')
  {
    hide AckedAway;
    forall r | AckedAway(canon, acks, r) ensures AckedAway(canon, acks', r) { MoreAcks(canon, acks, acks', r); }
  }

  lemma QueueKeeps(s: Settings, canon: Digests, t: Trace, id: Id, now: int, wrote: Wrote)
    requires Good(s, canon, t)
    ensures var st := Step(s, t.p.store, Insert(id, now, wrote));
            && Sound(s, st) && HeldIsHead(t.p.(store := st))
            && Accounted(canon, st, t.queued + Records(st.content.log),
                         Since(t.acks, t.p.store.content.log, st.content.log))
  {
    var op := Insert(id, now, wrote);
    InsertStep(s, t.p.store, id, now, wrote);
    if t.p.store.content.log != [] { HeadStaysPut(s, t.p.store, id, now, wrote); }
    assert Acted(s, t.p.store, Do(op)) == Serving(Step(s, t.p.store, op));
    hide Step, Sound, AckedAway;
    OpKeepsAccount(s, canon, t.p.store, Do(op), t.queued, t.acks, t.acks);
  }

  lemma CrashKeeps(s: Settings, canon: Digests, retry: int, t: Trace, e: Event)
    requires Good(s, canon, t) && e.Crashed? && Enabled(s, canon, t, e)
    ensures Good(s, canon, After(s, canon, retry, t, e))
  {
    var op := OpOf(canon, t.p, e.during).value;
    var acks := t.acks + Received(canon, t.p, e.during);
    if e.during.Acking? {
      RetiringAck(s, canon, t.p, e.during.topic, e.during.ack, e.during.faults, acks);
    }
    ActedIsSound(s, t.p.store, Crash(op, e.at));
    hide Acted, Sound, AckedAway, Decides, Accounted;
    OpKeepsAccount(s, canon, t.p.store, Crash(op, e.at), t.queued, t.acks, acks);
  }

  lemma EventKeeps(s: Settings, canon: Digests, retry: int, t: Trace, e: Event)
    requires Good(s, canon, t) && Enabled(s, canon, t, e)
    ensures Good(s, canon, After(s, canon, retry, t, e))
  {
    hide Sound, Accounted, Step, Acknowledged, Carries;
    match e
    case Queue(id, now, wrote) => QueueKeeps(s, canon, t, id, now, wrote);
    case Acks(topic, ack, f) => AcksKeep(s, canon, t, topic, ack, f);
    case Crashed(_, _) => CrashKeeps(s, canon, retry, t, e);
    case _ =>
  }

  lemma {:induction false} RunsAreGood(s: Settings, canon: Digests, retry: int, start: Store, run: seq<Event>)
    requires Sound(s, start) && Whole(start) && Ran(s, canon, retry, start, run).Some?
    ensures Good(s, canon, Ran(s, canon, retry, start, run).value)
  {
    if run != [] {
      RunsAreGood(s, canon, retry, start, Front(run));
      hide Good, After, Enabled;
      EventKeeps(s, canon, retry, Ran(s, canon, retry, start, Front(run)).value, Last(run));
    }
  }

  /** Over every process and every crash, an entry is queued with its file until an
      acknowledgement comes while that entry is at the head, for its device, naming
      its device, type and canonical digest, and decides to retire it. */
  lemma RemovedOnlyByAck(s: Settings, canon: Digests, retry: int, start: Store, run: seq<Event>, r: Record)
    requires Sound(s, start) && Whole(start) && Ran(s, canon, retry, start, run).Some?
    requires r in Ran(s, canon, retry, start, run).value.queued
    ensures var t := Ran(s, canon, retry, start, run).value;
            || Kept(t.p.store, r)
            || (exists topic, ack :: Retiring(r, topic, ack) in t.acks
                  && ack.device == topic == r.id.payload.device != "" && ack.at > 0
                  && ack.artifactType == TypeName(r.id.kind) && canon(r.id.payload) == Some(ack.digest)
                  && ((ack.outcome == "applied" && ack.reason == "")
                      || (ack.outcome == "refused" && Final(ack.reason))))
  {
    RunsAreGood(s, canon, retry, start, run);
    hide Ran;
    var t := Ran(s, canon, retry, start, run).value;
    if AckedAway(canon, t.acks, r) {
      var topic, ack :| Retiring(r, topic, ack) in t.acks && Names(canon, r, topic, ack)
          && Decide(ack.outcome, ack.reason) == Retires;
      DecidesBy(ack.outcome, ack.reason);
      hide Decide, Final, Good;
      assert Retiring(r, topic, ack) in t.acks;
    }
  }

  /** The held entry is always the head, and its device the one it is held for. */
  lemma HeldIsAlwaysHead(s: Settings, canon: Digests, retry: int, start: Store, run: seq<Event>)
    requires Sound(s, start) && Whole(start) && Ran(s, canon, retry, start, run).Some?
    ensures HeldIsHead(Ran(s, canon, retry, start, run).value.p)
  {
    RunsAreGood(s, canon, retry, start, run);
  }

  // ---------------------------------------------------------------------
  // When a held entry is published
  // ---------------------------------------------------------------------

  /** The entry is held, or has left this process's queue for good. */
  ghost predicate Quiet(p: Publisher, r: Record) {
    && r.seqno < p.store.next
    && (r in p.store.content.log ==> p.held == Some(Hold(r.id, r.id.payload.device)))
  }

  /** Within one process, with no artifact of the device newly admitted. */
  predicate NoneAdmitted(run: seq<Event>, device: string) {
    run != [] ==>
      && NoneAdmitted(Front(run), device)
      && !Last(run).Crashed? && Last(run) != HandedOff(device, Handoff.Admitted)
  }

  /** How the pass under way ends: whether the first event that ends it is its
      publish, or none has ended it yet. */
  datatype Ending = Open | Published | GaveUp

  function EndOf(run: seq<Event>): Ending {
    if run == [] then Open
    else
      var before := EndOf(Front(run));
      if before != Open then before
      else if Last(run).Publishes? then Published
      else if Last(run).GivesUp? then GaveUp
      else Open
  }

  lemma AckKeepsQuiet(s: Settings, canon: Digests, p: Publisher, topic: string, ack: Ack, f: Faults, r: Record)
    requires Sound(s, p.store) && HeldIsHead(p) && Quiet(p, r)
    ensures Quiet(Acknowledged(s, canon, p, topic, ack, f), r)
  {
    var p' := Acknowledged(s, canon, p, topic, ack, f);
    if r in p'.store.content.log { AckAdds(s, canon, p, topic, ack, f, r); }
    AckKeepsHold(s, canon, p, topic, ack, f);
    if Decides(canon, p, topic, ack) == Retires {
      var head := Head(p).value;
      RetireStep(s, p.store, RetireHead(head.id, f));
      FoundAfterRetire(p.store.content.log, head);
      WithoutHas(p.store.content.log, head.id, r);
    }
    hide Step, Find, Without, Names, Decide, Sound;
  }

  lemma InsertKeepsQuiet(s: Settings, p: Publisher, id: Id, now: int, wrote: Wrote, r: Record)
    requires Sound(s, p.store) && Quiet(p, r)
    ensures Quiet(p.(store := Step(s, p.store, Insert(id, now, wrote))), r)
  {
    InsertStep(s, p.store, id, now, wrote);
    hide Admission, Find, Sound;
  }

  /** A held head is passed over, and what is not queued is not checked out. */
  lemma PassesOver(p: Publisher, now: int, retry: int, r: Record)
    requires Quiet(p, r)
    ensures Carries(p, now, retry) != Some(r)
  {
    hide Returnable;
    if Head(p) == Some(r) { assert r in p.store.content.log; }
  }

  /** One more publish of `r` exactly when it was checked out and now publishes. */
  lemma OneMorePublish(published: seq<Record>, other: Record, r: Record)
    ensures multiset(published + [other])[r] == multiset(published)[r] + if other == r then 1 else 0
  {
  }

  lemma EventKeepsQuiet(s: Settings, canon: Digests, retry: int, t: Trace, e: Event, r: Record)
    requires Good(s, canon, t) && Quiet(t.p, r) && Enabled(s, canon, t, e) && !e.Crashed?
    requires e != HandedOff(r.id.payload.device, Handoff.Admitted)
    ensures var t' := After(s, canon, retry, t, e);
            && Quiet(t'.p, r)
            && (t'.flight == Checked(r) <==> t.flight == Checked(r) && !e.Publishes? && !e.GivesUp?)
            && multiset(t'.published)[r] ==
               multiset(t.published)[r] + if t.flight == Checked(r) && e.Publishes? then 1 else 0
  {
    assert Sound(s, t.p.store) && HeldIsHead(t.p);
    hide Good, Sound, Step, Acknowledged, Carries, HeldIsHead;
    match e
    case Queue(id, now, wrote) => InsertKeepsQuiet(s, t.p, id, now, wrote, r);
    case Acks(topic, ack, f) => AckKeepsQuiet(s, canon, t.p, topic, ack, f, r);
    case Pass(now) => PassesOver(t.p, now, retry, r);
    case Publishes => if t.flight.Checked? { OneMorePublish(t.published, t.flight.r, r); }
    case _ =>
  }

  /** After an entry is held, and until an artifact of that same device is newly
      admitted, a publish of it begins exactly when its pass had already checked it
      out when the hold was decided and that pass publishes; then once, and never
      again. */
  lemma {:induction false} HeldPublishesOnlyInFlight(s: Settings, canon: Digests, retry: int, start: Store,
      run: seq<Event>, more: seq<Event>, r: Record)
    requires Sound(s, start) && Whole(start) && NoneAdmitted(more, r.id.payload.device)
    requires Ran(s, canon, retry, start, run).Some? && Ran(s, canon, retry, start, run + more).Some?
    requires var p := Ran(s, canon, retry, start, run).value.p;
             r in p.store.content.log && p.held == Some(Hold(r.id, r.id.payload.device))
    ensures var t, t' := Ran(s, canon, retry, start, run).value, Ran(s, canon, retry, start, run + more).value;
            && Quiet(t'.p, r)
            && (t'.flight == Checked(r) <==> t.flight == Checked(r) && EndOf(more) == Open)
            && multiset(t'.published)[r] ==
               multiset(t.published)[r] + if t.flight == Checked(r) && EndOf(more) == Published then 1 else 0
  {
    if more == [] {
      RunsAreGood(s, canon, retry, start, run);
      assert run + more == run;
    } else {
      assert Front(run + more) == run + Front(more) && Last(run + more) == Last(more);
      HeldPublishesOnlyInFlight(s, canon, retry, start, run, Front(more), r);
      RunsAreGood(s, canon, retry, start, run + Front(more));
      hide Good, After, Quiet, Enabled;
      EventKeepsQuiet(s, canon, retry, Ran(s, canon, retry, start, run + Front(more)).value, Last(more), r);
    }
  }

  /** A pass's publish ends: carried again by the next pass exactly when it failed, or
      the retry interval has passed since it returned. */
  lemma PublishRetries(s: Settings, canon: Digests, retry: int, t: Trace, r: Record, now: int, ok: bool, again: int)
    requires t.flight == Checked(r) && Head(t.p) == Some(r) && Returnable(r.id)
    requires (t.p.held.Some? ==> t.p.held.value.id != r.id)
             && (t.p.lastID == Some(r.id) ==> again - t.p.lastAt >= retry)
    ensures var t1 := After(s, canon, retry, t, Publishes);
            var t2 := After(s, canon, retry, t1, Returns(now, ok));
            var t3 := After(s, canon, retry, t2, Pass(again));
            && t1.flight == Begun(r) && t1.published == t.published + [r] && After(s, canon, retry, t1, GivesUp) == t1
            && t2.flight == Grounded && t3.published == t1.published
            && (t3.flight == Checked(r) <==> !ok || again - now >= retry)
    ensures After(s, canon, retry, t, GivesUp) == t.(flight := Grounded)
    ensures After(s, canon, retry, t, Returns(now, ok)) == t
  {
  }

  /** A held entry is carried again by the next pass once an artifact of its device is
      newly admitted, and by no other handoff. */
  lemma HandoffReleases(s: Settings, canon: Digests, retry: int, t: Trace, r: Record, device: string, kind: Handoff,
                        now: int)
    requires t.flight == Grounded && Head(t.p) == Some(r) && Returnable(r.id)
    requires t.p.held == Some(Hold(r.id, r.id.payload.device))
    requires t.p.lastID == Some(r.id) ==> now - t.p.lastAt >= retry
    ensures After(s, canon, retry, After(s, canon, retry, t, HandedOff(device, kind)), Pass(now)).flight ==
            if device == r.id.payload.device && kind == Handoff.Admitted then Checked(r) else Grounded
  {
  }

  /** A process can die at every crash point of a retirement an acknowledgement decided. */
  lemma AckCanCrash(s: Settings, canon: Digests, t: Trace, topic: string, ack: Ack, f: Faults, at: Disk)
    requires Decides(canon, t.p, topic, ack) == Retires
    requires at in CrashPoints(s, t.p.store, RetireHead(Head(t.p).value.id, f)) && Started(s, at).Serving?
    ensures Enabled(s, canon, t, Crashed(Acking(topic, ack, f), at))
  {
    hide Step, Decides, CrashPoints;
  }

  /** Such a publish is reachable: a refusal decided between a pass's check and its
      publish is followed by the publish of the entry it held. */
  lemma HoldCanPrecedeAPublish(s: Settings, canon: Digests, retry: int, id: Id, now: int, ack: Ack, f: Faults)
    requires id.payload.size > 0 && Admission(s, [], Record(id, 1, now)) == CourierCapacity.Admitted
    requires Names(canon, Record(id, 1, now), ack.device, ack) && Decide(ack.outcome, ack.reason).Holds?
    ensures var r := Record(id, 1, now);
            var run := [Queue(id, now, Committed), Pass(now), Acks(ack.device, ack, f)];
            var t := Ran(s, canon, retry, EMPTY_STORE, run);
            var t' := Ran(s, canon, retry, EMPTY_STORE, run + [Publishes]);
            && t.Some? && t.value.p.held == Some(Hold(id, id.payload.device)) && t.value.published == []
            && t'.Some? && t'.value.p.held == Some(Hold(id, id.payload.device)) && t'.value.published == [r]
  {
    var r := Record(id, 1, now);
    var e1, e2, e3 := Queue(id, now, Committed), Pass(now), Acks(ack.device, ack, f);
    hide Admission, Names, Decide;
    var run := [e1, e2, e3];
    var t0 := Trace(Publisher(EMPTY_STORE, None, None, 0), Grounded, Records([]), [], {});
    var st := Store(Content([r], map[], map[]), 2, map[RecordName(id) := RecordFile(1, id, r)]);
    var t1 := t0.(p := t0.p.(store := st), queued := Records([]) + Records([r]));
    assert Ran(s, canon, retry, EMPTY_STORE, [e1]) == Some(t1) by {
      assert Front([e1]) == [] && [] + [r] == [r];
      assert Since({}, [], [r]) == {};
    }
    assert Front([e1, e2]) == [e1] && Front(run) == [e1, e2] && Front(run + [Publishes]) == run;
    assert Returnable(id) by { hide *; NamedIsReturnable(canon, r, ack); }
    assert Ran(s, canon, retry, EMPTY_STORE, [e1, e2]) == Some(t1.(flight := Checked(r)));
  }

  /** With concrete values: a receipt for device "d", refused for an unknown key. */
  lemma HoldPrecedesAPublish()
    ensures var s := Settings(1, 1000, None, false);
            var id := Id(DeliveryReceipt, Payload("d", 0, Some(1), Some(1), 1, ""));
            var ack := Ack("d", "delivery_receipt", "x", "refused", "unknown_key", 1);
            var run := [Queue(id, 1, Committed), Pass(1), Acks("d", ack, Faults(Gone, Gone, Gone, Committed))];
            var t := Ran(s, _ => Some("x"), 5, EMPTY_STORE, run + [Publishes]);
            t.Some? && t.value.p.held == Some(Hold(id, "d")) && t.value.published == [Record(id, 1, 1)]
  {
    var s := Settings(1, 1000, None, false);
    var id := Id(DeliveryReceipt, Payload("d", 0, Some(1), Some(1), 1, ""));
    var ack := Ack("d", "delivery_receipt", "x", "refused", "unknown_key", 1);
    assert Size(Record(id, 1, 1)) < 1000 by { assert |Decimal.Format(1)| == 1; }
    assert Admission(s, [], Record(id, 1, 1)) == CourierCapacity.Admitted;
    hide Admission, Ran;
    HoldCanPrecedeAPublish(s, _ => Some("x"), 5, id, 1, ack, Faults(Gone, Gone, Gone, Committed));
  }

  lemma NamedIsReturnable(canon: Digests, r: Record, ack: Ack)
    requires Names(canon, r, ack.device, ack)
    ensures Returnable(r.id)
  {
  }

  // ---------------------------------------------------------------------
  // The publisher object
  // ---------------------------------------------------------------------

  /** The checks of an acknowledgement against the head, in order. */
  method Judge(canon: Digests, head: Record, topic: string, ack: Ack) returns (d: Decision)
    ensures d == if Names(canon, head, topic, ack) then Decide(ack.outcome, ack.reason) else NotADecision
    ensures var named := && ack.device == topic == head.id.payload.device != "" && ack.at > 0
                         && head.id.kind in {DeliveryReceipt, EpochConfirmation, CustodyAcknowledgement}
                         && ack.artifactType == TypeName(head.id.kind) && canon(head.id.payload) == Some(ack.digest);
            && (d == Retires <==> named && ((ack.outcome == "applied" && ack.reason == "")
                                            || (ack.outcome == "refused" && Final(ack.reason))))
            && (d.Holds? <==> named && ack.outcome == "refused" && !Final(ack.reason))
  {
    DecidesBy(ack.outcome, ack.reason);
    hide Decide, Final;
    if ack.device != topic || ack.at <= 0 { return NotADecision; }
    if !Returnable(head.id) { return NotADecision; }
    var digest := canon(head.id.payload);
    if digest.None? { return NotADecision; }
    if head.id.payload.device != topic || TypeName(head.id.kind) != ack.artifactType || ack.digest != digest.value {
      return NotADecision;
    }
    return Decide(ack.outcome, ack.reason);
  }

  class ReturnPublisher {
    const queue: DurableQueue
    const retry: int
    const canon: Digests
    var held: Option<Hold>
    var lastID: Option<Id>
    var lastAt: int

    ghost function View(): Publisher
      reads this, queue
      requires queue.Valid()
    {
      Publisher(queue.View(), held, lastID, lastAt)
    }

    constructor (queue: DurableQueue, retry: int, canon: Digests)
      requires queue.Valid()
      ensures this.queue == queue && this.retry == retry && this.canon == canon
      ensures View() == Publisher(queue.View(), None, None, 0)
    {
      this.queue, this.retry, this.canon := queue, retry, canon;
      held, lastID, lastAt := None, None, 0;
    }

    /** The entry a pass checks out under the lock, if any; it is signed and
        published after. */
    method CheckHead(now: int) returns (carried: Option<Record>)
      requires queue.Valid()
      ensures carried == Carries(View(), now, retry)
      ensures carried.Some? <==>
                && queue.View().content.log != []
                && var id := queue.View().content.log[0].id;
                && (held.None? || held.value.id != id) && (lastID == Some(id) ==> now - lastAt >= retry)
                && id.payload.device != "" && id.kind in {DeliveryReceipt, EpochConfirmation, CustodyAcknowledgement}
    {
      hide Step, Sound;
      var head := queue.Peek();
      if head.None? { return None; }
      var id := head.value.id;
      if held.Some? && held.value.id == id { return None; }
      if lastID == Some(id) && now - lastAt < retry { return None; }
      if !Returnable(id) { return None; }
      return head;
    }

    /** The end of the publish of an entry a pass checked out. */
    method PublishReturned(carried: Record, ok: bool, now: int)
      requires queue.Valid()
      modifies this`lastID, this`lastAt
      ensures View() == if ok then old(View()).(lastID := Some(carried.id), lastAt := now) else old(View())
    {
      if ok { lastID, lastAt := Some(carried.id), now; }
    }

    /** Applies an authenticated acknowledgement to the head; whether it decided. */
    method DecideAck(topic: string, ack: Ack, f: Faults) returns (decided: bool)
      requires queue.Valid()
      modifies this`held, queue
      ensures queue.Valid() && View() == Acknowledged(queue.settings, canon, old(View()), topic, ack, f)
      ensures decided <==> match Decides(canon, old(View()), topic, ack)
                           case Retires => Find(View().store.content.log, Head(old(View())).value.id).None?
                           case Holds(_) => true
                           case NotADecision => false
      ensures var log := old(View()).store.content.log;
              var named := && log != [] && ack.device == topic == log[0].id.payload.device != "" && ack.at > 0
                           && log[0].id.kind in {DeliveryReceipt, EpochConfirmation, CustodyAcknowledgement}
                           && ack.artifactType == TypeName(log[0].id.kind)
                           && canon(log[0].id.payload) == Some(ack.digest);
              if named && ((ack.outcome == "applied" && ack.reason == "")
                           || (ack.outcome == "refused" && Final(ack.reason)))
              then
                && View().store == Step(queue.settings, old(View()).store, RetireHead(log[0].id, f))
                && (decided <==> Find(View().store.content.log, log[0].id).None?)
                && (decided ==> held.None? || held.value.id != log[0].id)
              else if named && ack.outcome == "refused"
              then decided && View() == old(View()).(held := Some(Hold(log[0].id, topic)))
              else !decided && View() == old(View())
    {
      DecidesBy(ack.outcome, ack.reason);
      hide Step, Sound, Find, Decide, Final, LogOf, LaneTallies, DeviceTallies;
      var peeked := queue.Peek();
      if peeked.None? { return false; }
      var head := peeked.value;
      var decision := Judge(canon, head, topic, ack);
      if decision == NotADecision { return false; }
      if decision.Holds? {
        held := Some(Hold(head.id, head.id.payload.device));
        return true;
      }
      decided := Retired(head, f);
      if decided && held.Some? && held.value.id == head.id { held := None; }
    }

    /** The retirement of the head; whether it was removed. */
    method Retired(head: Record, f: Faults) returns (ok: bool)
      requires queue.Valid() && queue.View().content.log != [] && head == queue.View().content.log[0]
      modifies queue
      ensures queue.Valid() && queue.View() == Step(queue.settings, old(queue.View()), RetireHead(head.id, f))
      ensures ok <==> Find(queue.View().content.log, head.id).None?
    {
      hide Step, Sound, Find, Without, LogOf, LaneTallies, DeviceTallies, Sum;
      assert head in queue.View().content.log;
      LogHas(queue.order, queue.entries, head);
      ok := queue.Remove(head.id, f.holdRemoved, f.backoffRemoved, f.removed, f.restored);
      FindsEntry(queue.order, queue.entries, head.id);
    }

    /** A device's receiver state changed: its hold is released, and no other. */
    method ReceiverStateChanged(device: string)
      requires queue.Valid()
      modifies this`held
      ensures View() == StateChanged(old(View()), device)
      ensures held == if old(held).Some? && old(held).value.device == device then None else old(held)
    {
      if held.Some? && held.value.device == device { held := None; }
    }
  }
}
