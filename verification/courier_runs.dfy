/** The courier over whole runs: lanes that deliver, hold and retire what the
    outbound queue holds (internal/evidence/courier/worker.go, courier.go). */
module CourierRuns {
  import opened Base
  import opened CourierQueue
  import opened CourierCapacity
  import opened CourierDirectory
  import opened CourierStore
  import opened Refusal

  // ---------------------------------------------------------------------
  // What an acceptance must carry
  // ---------------------------------------------------------------------

  predicate AuthorityKind(kind: Kind) {
    kind in {DeliveryReceipt, EpochConfirmation}
  }

  /** A returned artifact's routing, against the artifact it answers: none when it
      is not one the courier may forward, else whether it is a receipt that covers
      the envelope. */
  function Routed(queued: Id, a: Id): Option<bool> {
    var p := a.payload;
    if queued.payload.device == "" || p.device == "" then None
    else if a.kind == DeliveryReceipt
            && (p.fromSeq.None? || p.toSeq.None? || p.fromSeq.value <= 0 || p.toSeq.value < p.fromSeq.value
                || p.toSeq.value > MAX_SAFE_INTEGER) then None
    else if p.device != queued.payload.device then None
    else if a.kind != DeliveryReceipt then Some(false)
    else Some(queued.kind == DeliveryEnvelope && p.fromSeq.value <= queued.payload.localSeq <= p.toSeq.value)
  }

  predicate Covers(queued: Id, a: Id) {
    Routed(queued, a) == Some(true)
  }

  predicate Forwardable(queued: Id, a: Id) {
    a.payload.size > 0 && AuthorityKind(a.kind) && Routed(queued, a).Some?
  }

  /** An acceptance that retires what was sent: every artifact it returns can be
      forwarded, and an envelope's includes a receipt that covers it. */
  predicate Acceptable(queued: Id, artifacts: seq<Id>) {
    && (forall a | a in artifacts :: Forwardable(queued, a))
    && (queued.kind == DeliveryEnvelope ==> exists a | a in artifacts :: Covers(queued, a))
  }

  /** What an acceptance carries, in the artifacts' own terms: receipts and epoch
      confirmations of the queued artifact's device and nothing else, receipts with a
      range of sequences, and for an envelope a receipt whose range has its own. */
  predicate Answers(queued: Id, artifacts: seq<Id>) {
    && (forall a | a in artifacts ::
          && a.payload.size > 0 && (a.kind == DeliveryReceipt || a.kind == EpochConfirmation)
          && queued.payload.device != "" && a.payload.device == queued.payload.device)
    && (forall a | a in artifacts && a.kind == DeliveryReceipt ::
          && a.payload.fromSeq.Some? && a.payload.toSeq.Some?
          && 0 < a.payload.fromSeq.value <= a.payload.toSeq.value <= MAX_SAFE_INTEGER)
    && (queued.kind == DeliveryEnvelope ==>
          exists a | a in artifacts ::
            && a.kind == DeliveryReceipt && a.payload.fromSeq.Some? && a.payload.toSeq.Some?
            && a.payload.fromSeq.value <= queued.payload.localSeq <= a.payload.toSeq.value)
  }

  lemma AcceptableAnswers(queued: Id, artifacts: seq<Id>)
    ensures Acceptable(queued, artifacts) <==> Answers(queued, artifacts)
  {
    if Acceptable(queued, artifacts) {
      forall a | a in artifacts ensures Forwardable(queued, a) {
      }
      if queued.kind == DeliveryEnvelope { var a :| a in artifacts && Covers(queued, a); }
    }
    if Answers(queued, artifacts) && queued.kind == DeliveryEnvelope {
      var a :| a in artifacts && a.kind == DeliveryReceipt && a.payload.fromSeq.Some? && a.payload.toSeq.Some?
          && a.payload.fromSeq.value <= queued.payload.localSeq <= a.payload.toSeq.value;
      assert Covers(queued, a);
    }
  }

  /** The worker's pass over an acceptance's artifacts. */
  method CheckAcceptance(queued: Id, artifacts: seq<Id>) returns (ok: bool)
    ensures ok <==> Acceptable(queued, artifacts)
    ensures ok <==> Answers(queued, artifacts)
  {
    AcceptableAnswers(queued, artifacts);
    hide Answers;
    var covering := false;
    for i := 0 to |artifacts|
      invariant forall a | a in artifacts[..i] :: Forwardable(queued, a)
      invariant covering <==> exists a | a in artifacts[..i] :: Covers(queued, a)
    {
      var artifact := artifacts[i];
      assert artifacts[..i + 1] == artifacts[..i] + [artifact];
      assert artifact in artifacts && artifact in artifacts[..i + 1];
      if artifact.payload.size == 0 || !AuthorityKind(artifact.kind) { return false; }
      var routed := Routed(queued, artifact);
      if routed.None? { return false; }
      covering := covering || routed.value;
    }
    assert artifacts[..|artifacts|] == artifacts;
    ok := queued.kind != DeliveryEnvelope || covering;
  }

  // ---------------------------------------------------------------------
  // The state
  // ---------------------------------------------------------------------

  /** What a lane's attempt is in the middle of. */
  datatype Phase =
    | Holding(hold: HoldRecord<Id>)
    | Storing(record: Record, artifacts: seq<Id>, returned: seq<Record>)

  /** The return queue, a durable queue of its own, and the entries whose retirement
      a runtime's acknowledgement began since they were last queued. */
  datatype Returns = Returns(settings: Settings, store: Store, acked: set<Record>)

  /** An acceptance all of whose artifacts were stored, with the entries of the return
      queue that hold them. */
  datatype Settlement = Settlement(record: Record, artifacts: seq<Id>, returned: seq<Record>)

  /** What happened to each queued record since it was admitted: the acceptances the
      channel gave it, and those settled. */
  datatype History = History(accepted: set<(Record, seq<Id>)>, settled: set<Settlement>)

  /** The outbound store and the return queue; a process's holds and attempts under
      way, lost in a crash; and what happened over every process: what was sent, the
      history of what is queued, which entries of the return queue hold what was
      stored, and, in order, what entered the outbound queue and what left it, with
      the history it left with. */
  datatype Courier = Courier(
    store: Store,
    held: map<LaneKey, Id>,
    phases: map<LaneKey, Phase>,
    sent: seq<Record>,
    lives: History,
    stored: set<Record>,
    back: Returns,
    admitted: seq<Record>,
    gone: seq<Record>,
    why: seq<History>)

  /** The evidence channel's answer: an acceptance with its artifacts, a terminal
      refusal, or anything the lane retries. */
  datatype Response = Accepted(artifacts: seq<Id>) | Terminal(status: int, reason: string, now: int) | Retried

  datatype Action =
    | Admit(id: Id, now: int, wrote: Wrote)
    | Send(key: LaneKey, response: Response)
    | StoreNext(key: LaneKey, admissible: bool, now: int, wrote: Wrote)
    | PersistHold(key: LaneKey, wrote: Wrote)
    | RetireHead(key: LaneKey, holdRemoved: Removed, backoffRemoved: Removed, removed: Removed, restored: Wrote)
    | Sidecar(op: Op)
    | ReturnOp(op: Op)
    | Crashed(during: Op, at: Disk, returning: Op, returnsAt: Disk)

  function Minus(log: seq<Record>, other: seq<Record>): seq<Record> {
    if log == [] then [] else Minus(Front(log), other) + if Last(log) in other then [] else [Last(log)]
  }

  /** The history of what stays queued. */
  function Since(h: History, log: seq<Record>, log': seq<Record>): History {
    History(set x | x in h.accepted && x.0 in log && x.0 in log',
            set x | x in h.settled && x.record in log && x.record in log')
  }

  /** The store moves on, and history notes what entered and what left. */
  function Tracked(c: Courier, st: Store): Courier {
    var left := Minus(c.store.content.log, st.content.log);
    c.(store := st,
       lives := Since(c.lives, c.store.content.log, st.content.log),
       admitted := c.admitted + Minus(st.content.log, c.store.content.log),
       gone := c.gone + left,
       why := c.why + seq(|left|, _ => c.lives))
  }

  function RetireOp(c: Courier, a: Action): Op
    requires a.RetireHead? && a.key in c.phases && c.phases[a.key].Storing?
  {
    Retire(c.phases[a.key].record.id, a.holdRemoved, a.backoffRemoved, a.removed, a.restored)
  }

  /** Whether a process may be in the middle of this operation on the store. */
  ghost predicate UnderWay(c: Courier, op: Op) {
    match op
    case SetHold(h, _) => exists key :: key in c.phases && c.phases[key] == Holding(h)
    case Retire(id, _, _, _, _) =>
      exists key :: key in c.phases && c.phases[key].Storing? && c.phases[key].record.id == id
          && |c.phases[key].returned| == |c.phases[key].artifacts|
    case _ => true
  }

  ghost predicate Enabled(s: Settings, c: Courier, a: Action) {
    match a
    case Send(key, _) => key !in c.phases
    case StoreNext(key, _, _, _) => MayStore(c, key)
    case PersistHold(key, _) => key in c.phases && c.phases[key].Holding?
    case RetireHead(key, _, _, _, _) =>
      key in c.phases && c.phases[key].Storing? && |c.phases[key].returned| == |c.phases[key].artifacts|
    case Sidecar(op) => op.SetBackoff? || op.ClearBackoff?
    case ReturnOp(op) => op.Insert? || op.Retire?
    case Crashed(during, at, returning, returnsAt) =>
      && UnderWay(c, during) && Acted(s, c.store, Crash(during, at)).Serving?
      && (returning.Insert? || returning.Retire?)
      && Acted(c.back.settings, c.back.store, Crash(returning, returnsAt)).Serving?
    case _ => true
  }

  /** The hold in force on a lane: the process's own, or one an earlier process
      left beside the head. */
  function HeldNow(c: Courier, key: LaneKey, head: Record): bool {
    (key in c.held && c.held[key] == head.id) || head.id in c.store.content.holds
  }

  /** The history once a lane's attempt has stored all it was returned. */
  function Noted(h: History, p: Phase): History
    requires p.Storing?
  {
    if |p.returned| < |p.artifacts| then h
    else h.(settled := h.settled + {Settlement(p.record, p.artifacts, p.returned)})
  }

  function Sending(c: Courier, key: LaneKey, response: Response): Courier {
    var head := LaneHead(c.store.content.log, key);
    if head.None? then c.(held := c.held - {key})
    else if HeldNow(c, key, head.value) then c.(held := c.held[key := head.value.id])
    else
      var record := head.value;
      var sent := c.(sent := c.sent + [record], held := c.held - {key});
      match response
      case Accepted(artifacts) =>
        var lives := c.lives.(accepted := c.lives.accepted + {(record, artifacts)});
        if Acceptable(record.id, artifacts) then
          var p := Storing(record, artifacts, []);
          sent.(phases := c.phases[key := p], lives := Noted(lives, p))
        else sent.(lives := lives)
      case Terminal(status, reason, now) =>
        sent.(held := c.held[key := record.id],
              phases := c.phases[key := Holding(HoldFor(record.id, status, reason, now))])
      case Retried => sent
  }

  predicate MayStore(c: Courier, key: LaneKey) {
    key in c.phases && c.phases[key].Storing? && |c.phases[key].returned| < |c.phases[key].artifacts|
  }

  /** The entry of the return queue an operation retires, if any. */
  function EntryOf(b: Returns, op: Op): set<Record> {
    if op.Retire? && Find(b.store.content.log, op.id).Some? then {Find(b.store.content.log, op.id).value} else {}
  }

  /** The return queue after an operation on it, or after a crash during one. */
  ghost function ReturnsAfter(b: Returns, a: CourierStore.Action): Returns
    requires Acted(b.settings, b.store, a).Serving?
  {
    var st := Acted(b.settings, b.store, a).store;
    b.(store := st,
       acked := set r | r in b.acked + EntryOf(b, a.op) && (r in b.store.content.log || r !in st.content.log))
  }

  /** Staging the next returned artifact in the return queue. One the queue will not
      hold, or could not write, ends the attempt. */
  ghost function Stowing(c: Courier, key: LaneKey, admissible: bool, now: int, wrote: Wrote): Courier
    requires MayStore(c, key)
  {
    var p := c.phases[key];
    var a := p.artifacts[|p.returned|];
    var b := if admissible then ReturnsAfter(c.back, Do(Insert(a, now, wrote))) else c.back;
    var entry := Find(b.store.content.log, a);
    if admissible && entry.Some? then
      var p' := p.(returned := p.returned + [entry.value]);
      c.(back := b, stored := c.stored + {entry.value}, phases := c.phases[key := p'], lives := Noted(c.lives, p'))
    else c.(back := b, phases := c.phases - {key})
  }

  ghost function Next(s: Settings, c: Courier, a: Action): Courier
    requires Enabled(s, c, a)
  {
    match a
    case Admit(id, now, wrote) => Tracked(c, Step(s, c.store, Insert(id, now, wrote)))
    case Send(key, response) => Sending(c, key, response)
    case StoreNext(key, admissible, now, wrote) => Stowing(c, key, admissible, now, wrote)
    case PersistHold(key, wrote) =>
      Tracked(c, Step(s, c.store, SetHold(c.phases[key].hold, wrote))).(phases := c.phases - {key})
    case RetireHead(key, _, _, _, _) =>
      Tracked(c, Step(s, c.store, RetireOp(c, a))).(phases := c.phases - {key})
    case Sidecar(op) => Tracked(c, Step(s, c.store, op))
    case ReturnOp(op) => c.(back := ReturnsAfter(c.back, Do(op)))
    case Crashed(during, at, returning, returnsAt) =>
      Tracked(c, Acted(s, c.store, Crash(during, at)).store)
        .(held := map[], phases := map[], back := ReturnsAfter(c.back, Crash(returning, returnsAt)))
  }

  /** A run of the courier's processes on two directories, created empty, with the
      options `s` and `t`; none when an action was not possible where it stands. */
  ghost function Ran(s: Settings, t: Settings, run: seq<Action>): Option<Courier> {
    if run == [] then 
      Some(Courier(EMPTY_STORE, map[], map[], [], History({}, {}), {}, Returns(t, EMPTY_STORE, {}), [], [], []))
    else
      var before := Ran(s, t, Front(run));
      if before.Some? && Enabled(s, before.value, Last(run)) then Some(Next(s, before.value, Last(run))) else None
  }

  // ---------------------------------------------------------------------
  // The invariant
  // ---------------------------------------------------------------------

  /** The channel accepted that record with those artifacts, and each is held by its
      entry of the return queue. */
  ghost predicate Settles(h: History, stored: set<Record>, x: Settlement) {
    && x in h.settled && (x.record, x.artifacts) in h.accepted && Acceptable(x.record.id, x.artifacts)
    && |x.returned| == |x.artifacts|
    && forall i | 0 <= i < |x.returned| :: x.returned[i].id == x.artifacts[i] && x.returned[i] in stored
  }

  /** An acceptance of that record is settled. */
  ghost predicate Justified(h: History, stored: set<Record>, r: Record) {
    exists x :: Settles(h, stored, x) && x.record == r
  }

  /** A queued record without its file is its lane's head, and was justified. */
  ghost predicate LostAreJustified(st: Store, lives: History, stored: set<Record>) {
    forall r | r in st.content.log && RecordName(r.id) !in st.disk ::
      LaneHead(st.content.log, KeyOf(r.id)) == Some(r) && Justified(lives, stored, r)
  }

  ghost predicate PhaseOK(log: seq<Record>, held: map<LaneKey, Id>, lives: History, stored: set<Record>,
      key: LaneKey, p: Phase) {
    match p
    case Holding(h) => key in held && held[key] == h.record
    case Storing(r, artifacts, returned) =>
      && LaneHead(log, key) == Some(r) && key !in held
      && (r, artifacts) in lives.accepted && Acceptable(r.id, artifacts)
      && |returned| <= |artifacts|
      && (forall i | 0 <= i < |returned| :: returned[i].id == artifacts[i] && returned[i] in stored)
      && (|returned| == |artifacts| ==> Settlement(r, artifacts, returned) in lives.settled)
  }

  ghost predicate PhasesOK(c: Courier) {
    forall key | key in c.phases :: PhaseOK(c.store.content.log, c.held, c.lives, c.stored, key, c.phases[key])
  }

  ghost predicate HeldOK(log: seq<Record>, held: map<LaneKey, Id>) {
    forall key | key in held :: LaneHead(log, key).Some? && LaneHead(log, key).value.id == held[key]
  }

  /** In every lane, what entered is what left, in that order, and what is queued. */
  ghost predicate InOrder(c: Courier) {
    forall key :: LaneLog(c.admitted, key) == LaneLog(c.gone, key) + LaneLog(c.store.content.log, key)
  }

  ghost predicate GoneAreJustified(c: Courier) {
    |c.why| == |c.gone| && forall i | 0 <= i < |c.gone| :: Justified(c.why[i], c.stored, c.gone[i])
  }

  /** Every entry that holds a stored artifact is still in the return queue, or was
      acknowledged there; and one is without its file only once acknowledged. */
  ghost predicate ReturnsOK(b: Returns, stored: set<Record>) {
    && Sound(b.settings, b.store)
    && (forall r | r in b.store.content.log :: RecordName(r.id) in b.store.disk || r in b.acked)
    && (forall r | r in stored :: r in b.store.content.log || r in b.acked)
  }

  ghost predicate Good(s: Settings, c: Courier) {
    && Sound(s, c.store) && ReturnsOK(c.back, c.stored)
    && LostAreJustified(c.store, c.lives, c.stored)
    && PhasesOK(c) && HeldOK(c.store.content.log, c.held)
    && InOrder(c) && GoneAreJustified(c)
  }

  // ---------------------------------------------------------------------
  // How the queue moves
  // ---------------------------------------------------------------------

  lemma {:induction false} MinusHas(log: seq<Record>, other: seq<Record>, r: Record)
    ensures r in Minus(log, other) <==> r in log && r !in other
  {
    if log != [] {
      MinusHas(Front(log), other, r);
      assert log == Front(log) + [Last(log)];
    }
  }

  lemma {:induction false} MinusOrdered(log: seq<Record>, other: seq<Record>)
    requires Ordered(log)
    ensures Ordered(Minus(log, other))
  {
    if log != [] {
      var kept := Minus(Front(log), other);
      MinusOrdered(Front(log), other);
      forall i | 0 <= i < |kept| ensures kept[i].seqno < Last(log).seqno && kept[i].id != Last(log).id {
        MinusHas(Front(log), other, kept[i]);
      }
    }
  }

  lemma {:induction false} LaneOrdered(log: seq<Record>, key: LaneKey)
    requires Ordered(log)
    ensures Ordered(LaneLog(log, key))
  {
    if log != [] {
      var kept := LaneLog(Front(log), key);
      LaneOrdered(Front(log), key);
      forall i | 0 <= i < |kept| ensures kept[i].seqno < Last(log).seqno && kept[i].id != Last(log).id {
        LaneHas(Front(log), key, kept[i]);
      }
    }
  }

  /** What is new comes after all there was, and only lane heads leave. */
  ghost predicate Moves(log: seq<Record>, log': seq<Record>, next: int) {
    && Ordered(log) && Ordered(log')
    && (forall r | r in log :: r.seqno < next)
    && (forall r | r in log' && r !in log :: r.seqno >= next)
    && (forall r | r in log && r !in log' :: LaneHead(log, KeyOf(r.id)) == Some(r))
  }

  /** Whether a lane's head has left. */
  predicate HeadLeft(log: seq<Record>, log': seq<Record>, key: LaneKey) {
    LaneHead(log, key).Some? && LaneHead(log, key).value !in log'
  }

  lemma LaneMembers(log: seq<Record>, log': seq<Record>, next: int, key: LaneKey, r: Record)
    requires Moves(log, log', next)
    ensures var x, y := LaneLog(log, key), LaneLog(log', key);
            var i := if HeadLeft(log, log', key) then 1 else 0;
            && (r in y <==> r in x[i..] || r in Minus(y, x))
            && (r in Minus(x, y) <==> r in x[..i])
            && (r in LaneLog(Minus(log', log), key) <==> r in Minus(y, x))
            && (r in LaneLog(Minus(log, log'), key) <==> r in Minus(x, y))
  {
    var x, y := LaneLog(log, key), LaneLog(log', key);
    hide LaneLog, Minus;
    LaneHas(log, key, r);
    LaneHas(log', key, r);
    MinusHas(x, y, r);
    MinusHas(y, x, r);
    MinusHas(log, log', r);
    MinusHas(log', log, r);
    LaneHas(Minus(log', log), key, r);
    LaneHas(Minus(log, log'), key, r);
    LaneOrdered(log, key);
    if x != [] {
      assert x[0] in x;
      LaneHas(log, key, x[0]);
      LaneHas(log', key, x[0]);
      HeadAndRest(x, r);
    }
  }

  lemma HeadAndRest(x: seq<Record>, r: Record)
    requires Ordered(x) && x != []
    ensures r in x[1..] <==> r in x && r != x[0]
    ensures r in x[..1] <==> r == x[0]
  {
    assert x == [x[0]] + x[1..];
  }

  lemma AddedOrdered(log: seq<Record>, log': seq<Record>, next: int, key: LaneKey, i: nat)
    requires Moves(log, log', next) && i <= |LaneLog(log, key)|
    requires forall r | r in LaneLog(log, key)[i..] :: r in log'
    ensures Ordered(LaneLog(log, key)[i..] + LaneLog(Minus(log', log), key))
  {
    hide LaneLog, Minus, Ordered;
    var x, added := LaneLog(log, key), LaneLog(Minus(log', log), key);
    LaneOrdered(log, key);
    MinusOrdered(log', log);
    LaneOrdered(Minus(log', log), key);
    forall r | r in added ensures r.seqno >= next && r in log' {
      LaneHas(Minus(log', log), key, r);
      MinusHas(log', log, r);
    }
    forall r | r in x ensures r.seqno < next { LaneHas(log, key, r); }
    AddedAfter(x, i, added, log', next);
  }

  /** So each lane keeps its order: it loses at most its head, and gains at its
      end. */
  lemma LaneMoves(log: seq<Record>, log': seq<Record>, next: int, key: LaneKey)
    requires Moves(log, log', next)
    ensures var x, y := LaneLog(log, key), LaneLog(log', key);
            var i := if HeadLeft(log, log', key) then 1 else 0;
            && y == x[i..] + LaneLog(Minus(log', log), key)
            && LaneLog(Minus(log, log'), key) == x[..i]
  {
    var x, y := LaneLog(log, key), LaneLog(log', key);
    var i := if HeadLeft(log, log', key) then 1 else 0;
    hide LaneLog, Minus, Ordered;
    var added, lost := LaneLog(Minus(log', log), key), LaneLog(Minus(log, log'), key);
    forall r ensures (r in y <==> r in x[i..] + added) && (r in lost <==> r in x[..i]) {
      LaneMembers(log, log', next, key, r);
    }
    forall r | r in x[i..] ensures r in log' { assert r in x[i..] + added; LaneHas(log', key, r); }
    AddedOrdered(log, log', next, key, i);
    LaneOrdered(log', key);
    SortedOnce(y, x[i..] + added);
    LaneOrdered(log, key);
    PrefixOrdered(x, i);
    MinusOrdered(log, log');
    LaneOrdered(Minus(log, log'), key);
    SortedOnce(lost, x[..i]);
  }

  lemma PrefixOrdered(x: seq<Record>, i: nat)
    requires Ordered(x) && i <= |x|
    ensures Ordered(x[..i])
  {
  }

  lemma AddedAfter(x: seq<Record>, i: nat, added: seq<Record>, log': seq<Record>, next: int)
    requires Ordered(x) && Ordered(added) && i <= |x|
    requires (forall r | r in added :: r.seqno >= next) && (forall r | r in x :: r.seqno < next)
    requires forall r | r in x[i..] + added :: r in log'
    requires Ordered(log')
    ensures Ordered(x[i..] + added)
  {
    var both := x[i..] + added;
    forall a, b | 0 <= a < b < |both| ensures both[a].seqno < both[b].seqno && both[a].id != both[b].id {
      assert both[a] in both && both[b] in both;
      if a < |x| - i { assert both[a] == x[i + a] && x[i + a] in x; }
      if b >= |x| - i { assert both[b] == added[b - (|x| - i)] && both[b] in added; }
      if both[a].id == both[b].id { SameRecord(log', both[a], both[b]); }
    }
  }

  lemma HeadKept(log: seq<Record>, log': seq<Record>, next: int, key: LaneKey)
    requires Moves(log, log', next) && LaneHead(log, key).Some? && LaneHead(log, key).value in log'
    ensures LaneHead(log', key) == LaneHead(log, key)
  {
    LaneMoves(log, log', next, key);
  }

  lemma HeadInLane(log: seq<Record>, key: LaneKey)
    requires LaneHead(log, key).Some?
    ensures LaneHead(log, key).value in log && KeyOf(LaneHead(log, key).value.id) == key
  {
    var lane := LaneLog(log, key);
    assert lane[0] in lane;
    LaneHas(log, key, lane[0]);
  }

  lemma StepNew(s: Settings, st: Store, op: Op, r: Record)
    requires r in Step(s, st, op).content.log && r !in st.content.log
    ensures op.Insert? && r.seqno == st.next
  {
    LogAfter(s, st, op);
    hide Admission, Find;
    assert op.Insert?;
  }

  lemma NewIsLater(s: Settings, st: Store, a: CourierStore.Action, r: Record)
    requires Sound(s, st) && Acted(s, st, a).Serving? && r in Acted(s, st, a).store.content.log && r !in st.content.log
    ensures r.seqno >= st.next
  {
    if a.Do? {
      StepNew(s, st, a.op, r);
    } else {
      StepKeeps(s, st, a.op);
      StartedIsSound(s, a.at);
      var c := Acted(s, st, a).store.content;
      CrashPointsMirror(s, st, a.op, a.at);
      CrashPointStored(s, st, a.op, a.at, c);
      OnDiskHas(st.content.log, a.at, r);
      OnDiskHas(Step(s, st, a.op).content.log, a.at, r);
      hide Sound, Step, Acted, OnDisk, Loads, Mirrors;
      StepNew(s, st, a.op, r);
    }
  }

  /** A record being retired is its lane's head, and is justified. */
  lemma RetiringHead(s: Settings, c: Courier, op: Op, r: Record)
    requires Ordered(c.store.content.log) && PhasesOK(c) && UnderWay(c, op) && op.Retire?
             && r in c.store.content.log && r.id == op.id
    ensures LaneHead(c.store.content.log, KeyOf(r.id)) == Some(r) && KeyOf(r.id) !in c.held
    ensures Justified(c.lives, c.stored, r)
  {
    var key :| key in c.phases && c.phases[key].Storing? && c.phases[key].record.id == op.id
        && |c.phases[key].returned| == |c.phases[key].artifacts|;
    var p := c.phases[key];
    assert PhaseOK(c.store.content.log, c.held, c.lives, c.stored, key, p);
    hide LaneHead, Acceptable;
    HeadInLane(c.store.content.log, key);
    SameRecord(c.store.content.log, r, p.record);
    assert Settles(c.lives, c.stored, Settlement(r, p.artifacts, p.returned));
  }

  lemma Dropped(s: Settings, c: Courier, a: CourierStore.Action, r: Record)
    requires Sound(s, c.store) && LostAreJustified(c.store, c.lives, c.stored) && PhasesOK(c) && UnderWay(c, a.op)
    requires Acted(s, c.store, a).Serving? && r in c.store.content.log && r !in Acted(s, c.store, a).store.content.log
    ensures LaneHead(c.store.content.log, KeyOf(r.id)) == Some(r) && Justified(c.lives, c.stored, r)
    ensures a.Do? ==> a.op.Retire? && a.op.id == r.id
  {
    if a.Do? {
      LogAfter(s, c.store, a.op);
      assert a.op.Retire? && a.op.id == r.id;
    }
    hide LaneHead, Justified, PhaseOK, Acted, Step;
    if a.op.Retire? && a.op.id == r.id {
      RetiringHead(s, c, a.op, r);
    } else if RecordName(r.id) in c.store.disk {
      StaysKept(s, c.store, a, r);
    }
  }

  lemma StoreMoves(s: Settings, c: Courier, a: CourierStore.Action)
    requires Good(s, c) && UnderWay(c, a.op) && Acted(s, c.store, a).Serving?
    ensures var st := Acted(s, c.store, a).store;
            && Sound(s, st) && Moves(c.store.content.log, st.content.log, c.store.next)
            && (forall r | r in c.store.content.log && r !in st.content.log :: Justified(c.lives, c.stored, r))
            && (a.Do? ==> forall r | r in c.store.content.log && r !in st.content.log ::
                  a.op.Retire? && a.op.id == r.id)
  {
    var st := Acted(s, c.store, a).store;
    ActedIsSound(s, c.store, a);
    hide Acted, LaneHead, Justified, LostAreJustified, InOrder, GoneAreJustified, HeldOK, PhasesOK, UnderWay,
        Ordered, Mirrors;
    forall r | r in st.content.log && r !in c.store.content.log ensures r.seqno >= c.store.next {
      NewIsLater(s, c.store, a, r);
    }
    forall r | r in c.store.content.log && r !in st.content.log
      ensures LaneHead(c.store.content.log, KeyOf(r.id)) == Some(r) && Justified(c.lives, c.stored, r)
      ensures a.Do? ==> a.op.Retire? && a.op.id == r.id
    {
      Dropped(s, c, a, r);
    }
  }

  lemma StaysJustified(h: History, log: seq<Record>, log': seq<Record>, stored: set<Record>, r: Record)
    requires Justified(h, stored, r) && r in log && r in log'
    ensures Justified(Since(h, log, log'), stored, r)
  {
    var x :| Settles(h, stored, x) && x.record == r;
    hide Acceptable;
    assert Settles(Since(h, log, log'), stored, x);
  }

  lemma LostStayJustified(s: Settings, c: Courier, a: CourierStore.Action)
    requires Good(s, c) && UnderWay(c, a.op) && Acted(s, c.store, a).Serving?
    ensures var st := Acted(s, c.store, a).store;
            LostAreJustified(st, Since(c.lives, c.store.content.log, st.content.log), c.stored)
  {
    var log, st := c.store.content.log, Acted(s, c.store, a).store;
    var lives := Since(c.lives, log, st.content.log);
    StoreMoves(s, c, a);
    if a.Do? {
      LogAfter(s, c.store, a.op);
      hide LaneHead, Justified, Moves, InOrder, GoneAreJustified, HeldOK, PhaseOK, Step, CrashPoints, Mirrors, UnderWay;
      forall r | r in st.content.log && RecordName(r.id) !in st.disk
        ensures LaneHead(st.content.log, KeyOf(r.id)) == Some(r) && Justified(lives, c.stored, r)
      {
        assert r in log;
        if a.op.Retire? && a.op.id == r.id {
          RetiringHead(s, c, a.op, r);
        } else if RecordName(r.id) in c.store.disk {
          OtherRecordsStay(s, c.store, a.op, st.disk, r.id);
        }
        HeadKept(log, st.content.log, c.store.next, KeyOf(r.id));
        StaysJustified(c.lives, log, st.content.log, c.stored, r);
      }
    } else {
      StartedIsSound(s, a.at);
    }
  }

  lemma LaneTracked(c: Courier, st: Store, next: int, key: LaneKey)
    requires LaneLog(c.admitted, key) == LaneLog(c.gone, key) + LaneLog(c.store.content.log, key)
    requires Moves(c.store.content.log, st.content.log, next)
    ensures LaneLog(Tracked(c, st).admitted, key) == LaneLog(Tracked(c, st).gone, key) + LaneLog(st.content.log, key)
  {
    hide LaneLog, Minus, Moves;
    var log, log' := c.store.content.log, st.content.log;
    LaneMoves(log, log', next, key);
    LaneConcat(c.admitted, Minus(log', log), key);
    LaneConcat(c.gone, Minus(log, log'), key);
    var x, gone, added := LaneLog(log, key), LaneLog(c.gone, key), LaneLog(Minus(log', log), key);
    var i := if HeadLeft(log, log', key) then 1 else 0;
    assert (gone + x) + added == (gone + x[..i]) + (x[i..] + added);
  }

  lemma TrackedKeeps(c: Courier, st: Store, next: int)
    requires InOrder(c) && GoneAreJustified(c) && Moves(c.store.content.log, st.content.log, next)
    requires forall r | r in c.store.content.log && r !in st.content.log :: Justified(c.lives, c.stored, r)
    ensures InOrder(Tracked(c, st)) && GoneAreJustified(Tracked(c, st))
  {
    hide LaneLog, Minus, Moves, Justified;
    var t := Tracked(c, st);
    forall key ensures LaneLog(t.admitted, key) == LaneLog(t.gone, key) + LaneLog(t.store.content.log, key) {
      LaneTracked(c, st, next, key);
    }
    var left := Minus(c.store.content.log, st.content.log);
    forall i | 0 <= i < |t.gone| ensures Justified(t.why[i], t.stored, t.gone[i]) {
      if i >= |c.gone| {
        assert t.gone[i] == left[i - |c.gone|] && t.gone[i] in left;
        MinusHas(c.store.content.log, st.content.log, t.gone[i]);
      }
    }
  }

  // ---------------------------------------------------------------------
  // Every action keeps the invariant
  // ---------------------------------------------------------------------

  predicate Grows(h: History, h': History) {
    h.accepted <= h'.accepted && h.settled <= h'.settled
  }

  lemma MoreJustified(h: History, h': History, stored: set<Record>, stored': set<Record>, r: Record)
    requires Grows(h, h') && stored <= stored' && Justified(h, stored, r)
    ensures Justified(h', stored', r)
  {
    var x :| Settles(h, stored, x) && x.record == r;
    hide Acceptable;
    assert Settles(h', stored', x);
  }

  lemma MoreHistory(c: Courier, c': Courier)
    requires Grows(c.lives, c'.lives) && c.stored <= c'.stored
    ensures c'.store == c.store && LostAreJustified(c.store, c.lives, c.stored) ==>
            LostAreJustified(c'.store, c'.lives, c'.stored)
    ensures c'.gone == c.gone && c'.why == c.why && GoneAreJustified(c) ==> GoneAreJustified(c')
  {
    hide Justified, LaneHead;
    forall h, h', r | Grows(h, h') && Justified(h, c.stored, r) ensures Justified(h', c'.stored, r) {
      MoreJustified(h, h', c.stored, c'.stored, r);
    }
    assert forall h :: Grows(h, h);
  }

  lemma PhaseGrows(c: Courier, c': Courier, key: LaneKey, p: Phase)
    requires Grows(c.lives, c'.lives) && c.stored <= c'.stored
    requires PhaseOK(c.store.content.log, c.held, c.lives, c.stored, key, p)
    requires c'.store == c.store && (key in c.held <==> key in c'.held)
             && (key in c.held ==> c'.held[key] == c.held[key])
    ensures PhaseOK(c'.store.content.log, c'.held, c'.lives, c'.stored, key, p)
  {
    hide Acceptable, LaneHead;
  }

  /** The operation leaves every lane's head where it is, but for the one it
      retires. */
  ghost predicate KeepsHeads(log: seq<Record>, log': seq<Record>, op: Op) {
    forall key | LaneHead(log, key).Some? && (op.Retire? ==> KeyOf(op.id) != key) ::
      LaneHead(log', key) == LaneHead(log, key)
  }

  lemma HeadsStay(log: seq<Record>, log': seq<Record>, next: int, op: Op)
    requires Moves(log, log', next) && (forall r | r in log && r !in log' :: op.Retire? && op.id == r.id)
    ensures KeepsHeads(log, log', op)
  {
    hide Moves, LaneHead;
    forall key | LaneHead(log, key).Some? && (op.Retire? ==> KeyOf(op.id) != key)
        ensures LaneHead(log', key) == LaneHead(log, key) {
      HeadInLane(log, key);
      HeadKept(log, log', next, key);
    }
  }

  lemma LanesStay(c: Courier, log': seq<Record>, op: Op, phases: map<LaneKey, Phase>)
    requires HeldOK(c.store.content.log, c.held) && PhasesOK(c) && KeepsHeads(c.store.content.log, log', op)
    requires forall key | key in phases ::
               key in c.phases && phases[key] == c.phases[key] && (op.Retire? ==> key != KeyOf(op.id))
    requires op.Retire? ==> KeyOf(op.id) !in c.held
    ensures HeldOK(log', c.held)
    ensures var lives := Since(c.lives, c.store.content.log, log');
            forall key | key in phases :: PhaseOK(log', c.held, lives, c.stored, key, phases[key])
  {
    hide LaneHead, Acceptable;
    var lives := Since(c.lives, c.store.content.log, log');
    forall key | key in phases ensures PhaseOK(log', c.held, lives, c.stored, key, phases[key]) {
      assert PhaseOK(c.store.content.log, c.held, c.lives, c.stored, key, c.phases[key]);
      if phases[key].Storing? {
        HeadInLane(c.store.content.log, key);
        HeadInLane(log', key);
      }
    }
  }

  lemma DidKeeps(s: Settings, c: Courier, op: Op, phases: map<LaneKey, Phase>)
    requires Good(s, c) && UnderWay(c, op)
    requires forall key | key in phases ::
               key in c.phases && phases[key] == c.phases[key] && (op.Retire? ==> key != KeyOf(op.id))
    requires op.Retire? ==> KeyOf(op.id) !in c.held
    ensures Good(s, Tracked(c, Step(s, c.store, op)).(phases := phases))
  {
    var st := Step(s, c.store, op);
    assert Acted(s, c.store, Do(op)) == Serving(st);
    StoreMoves(s, c, Do(op));
    LostStayJustified(s, c, Do(op));
    hide Step, Sound, Acted, Moves, LaneHead, InOrder, GoneAreJustified, LostAreJustified, PhaseOK, Minus, UnderWay,
        KeepsHeads, HeldOK, Justified;
    TrackedKeeps(c, st, c.store.next);
    HeadsStay(c.store.content.log, st.content.log, c.store.next, op);
    LanesStay(c, st.content.log, op, phases);
    SameHistory(Tracked(c, st), Tracked(c, st).(phases := phases));
  }

  lemma SameHistory(c: Courier, c': Courier)
    requires c'.store == c.store && c'.admitted == c.admitted && c'.gone == c.gone && c'.why == c.why
             && c'.stored == c.stored
    requires InOrder(c) && GoneAreJustified(c)
    ensures InOrder(c') && GoneAreJustified(c')
  {
  }

  lemma SentPhases(c: Courier, key: LaneKey, response: Response)
    requires PhasesOK(c) && key !in c.phases
    ensures PhasesOK(Sending(c, key, response))
  {
    var c' := Sending(c, key, response);
    hide LaneHead, HoldFor, Acceptable;
    forall k | k in c'.phases ensures PhaseOK(c'.store.content.log, c'.held, c'.lives, c'.stored, k, c'.phases[k]) {
      if k != key {
        PhaseGrows(c, c', k, c.phases[k]);
      } else {
        HoldForNames(LaneHead(c.store.content.log, key).value.id, response);
      }
    }
  }

  lemma SentHolds(c: Courier, key: LaneKey, response: Response)
    requires HeldOK(c.store.content.log, c.held)
    ensures HeldOK(c.store.content.log, Sending(c, key, response).held)
  {
    hide LaneHead, HoldFor, Acceptable;
  }

  lemma SendKeeps(s: Settings, c: Courier, key: LaneKey, response: Response)
    requires Good(s, c) && key !in c.phases
    ensures Good(s, Sending(c, key, response))
  {
    hide Sound, LaneHead, InOrder, GoneAreJustified, LostAreJustified, Justified, PhasesOK, HeldOK, ReturnsOK, Sending;
    var c' := Sending(c, key, response);
    SentFrame(c, key, response);
    SentPhases(c, key, response);
    SentHolds(c, key, response);
    MoreHistory(c, c');
    SameOrder(c, c');
  }

  lemma SentFrame(c: Courier, key: LaneKey, response: Response)
    ensures var c' := Sending(c, key, response);
            && c'.store == c.store && c'.back == c.back && c'.stored == c.stored
            && c'.admitted == c.admitted && c'.gone == c.gone && c'.why == c.why && Grows(c.lives, c'.lives)
  {
    hide LaneHead, HoldFor, Acceptable;
  }

  lemma HoldForNames(id: Id, response: Response)
    ensures response.Terminal? ==> HoldFor(id, response.status, response.reason, response.now).record == id
  {
  }

  lemma SameOrder(c: Courier, c': Courier)
    requires c'.store == c.store && c'.admitted == c.admitted && c'.gone == c.gone && InOrder(c)
    ensures InOrder(c')
  {
  }

  lemma StowedPhase(c: Courier, c': Courier, key: LaneKey, entry: Record)
    requires MayStore(c, key) && PhaseOK(c.store.content.log, c.held, c.lives, c.stored, key, c.phases[key])
    requires c'.store == c.store && c'.held == c.held && key in c'.phases
    requires var p := c.phases[key];
             && entry.id == p.artifacts[|p.returned|] && c'.stored == c.stored + {entry}
             && c'.phases[key] == p.(returned := p.returned + [entry]) && c'.lives == Noted(c.lives, c'.phases[key])
    ensures PhaseOK(c'.store.content.log, c'.held, c'.lives, c'.stored, key, c'.phases[key])
  {
    hide LaneHead, Acceptable;
  }

  lemma StowedEntry(c: Courier, key: LaneKey, admissible: bool, now: int, wrote: Wrote)
    requires MayStore(c, key) && key in Stowing(c, key, admissible, now, wrote).phases
    ensures var c', p := Stowing(c, key, admissible, now, wrote), c.phases[key];
            && c'.phases[key].Storing? && c'.phases[key].returned != []
            && var entry := Last(c'.phases[key].returned);
            && entry.id == p.artifacts[|p.returned|] && c'.stored == c.stored + {entry}
            && c'.phases[key] == p.(returned := p.returned + [entry]) && c'.lives == Noted(c.lives, c'.phases[key])
            && entry in c'.back.store.content.log
  {
    hide ReturnsAfter, Find;
    var c', p := Stowing(c, key, admissible, now, wrote), c.phases[key];
    FindsQueued(c'.back.store.content.log, p.artifacts[|p.returned|]);
  }

  lemma StowedPhases(c: Courier, key: LaneKey, admissible: bool, now: int, wrote: Wrote)
    requires MayStore(c, key) && PhasesOK(c)
    ensures PhasesOK(Stowing(c, key, admissible, now, wrote))
  {
    hide PhaseOK, ReturnsAfter, Find;
    var c' := Stowing(c, key, admissible, now, wrote);
    if key in c'.phases { StowedEntry(c, key, admissible, now, wrote); }
    forall k | k in c'.phases ensures PhaseOK(c'.store.content.log, c'.held, c'.lives, c'.stored, k, c'.phases[k]) {
      assert PhaseOK(c.store.content.log, c.held, c.lives, c.stored, k, c.phases[k]);
      if k == key {
        StowedPhase(c, c', key, Last(c'.phases[key].returned));
      } else {
        PhaseGrows(c, c', k, c.phases[k]);
      }
    }
  }

  lemma StowedReturns(c: Courier, key: LaneKey, admissible: bool, now: int, wrote: Wrote)
    requires MayStore(c, key) && ReturnsOK(c.back, c.stored)
    ensures var c' := Stowing(c, key, admissible, now, wrote); ReturnsOK(c'.back, c'.stored)
  {
    var p, c' := c.phases[key], Stowing(c, key, admissible, now, wrote);
    var a := p.artifacts[|p.returned|];
    if admissible {
      ReturnsMove(c.back, Do(Insert(a, now, wrote)), c.stored);
      hide ReturnsAfter, Sound, Find, Acted;
      if key in c'.phases { StowedEntry(c, key, admissible, now, wrote); }
    }
  }

  lemma StowKeeps(s: Settings, c: Courier, key: LaneKey, admissible: bool, now: int, wrote: Wrote)
    requires Good(s, c) && MayStore(c, key)
    ensures Good(s, Stowing(c, key, admissible, now, wrote))
  {
    hide Sound, LaneHead, InOrder, GoneAreJustified, LostAreJustified, Justified, PhasesOK, ReturnsOK, ReturnsAfter,
        Find;
    var c' := Stowing(c, key, admissible, now, wrote);
    MoreHistory(c, c');
    SameOrder(c, c');
    StowedPhases(c, key, admissible, now, wrote);
    StowedReturns(c, key, admissible, now, wrote);
  }

  // ---------------------------------------------------------------------
  // The return queue keeps what it stored
  // ---------------------------------------------------------------------

  /** Any operation on the return queue, or crash during one, leaves every entry
      whose retirement never began where it is, with its file. */
  lemma ReturnsMove(b: Returns, a: CourierStore.Action, stored: set<Record>)
    requires ReturnsOK(b, stored) && Acted(b.settings, b.store, a).Serving?
    ensures ReturnsOK(ReturnsAfter(b, a), stored)
  {
    var b' := ReturnsAfter(b, a);
    ActedIsSound(b.settings, b.store, a);
    hide Acted, Sound, EntryOf;
    forall r | r in b.store.content.log
      ensures (r in b'.store.content.log && RecordName(r.id) in b'.store.disk) || r in b'.acked
    {
      EntryStays(b, a, r);
    }
    forall r | r in b'.store.content.log && r !in b.store.content.log ensures RecordName(r.id) in b'.store.disk {
      NewHasFile(b.settings, b.store, a, r);
    }
  }

  lemma EntryStays(b: Returns, a: CourierStore.Action, r: Record)
    requires Sound(b.settings, b.store) && Acted(b.settings, b.store, a).Serving?
    requires r in b.store.content.log && (RecordName(r.id) in b.store.disk || r in b.acked)
    ensures Kept(Acted(b.settings, b.store, a).store, r) || r in ReturnsAfter(b, a).acked
  {
    if a.op.Retire? && a.op.id == r.id {
      QueuedIn(b.store.content.log, r);
      FindsQueued(b.store.content.log, r.id);
      SameRecord(b.store.content.log, r, Find(b.store.content.log, r.id).value);
      hide Acted, Find;
    } else if RecordName(r.id) in b.store.disk {
      hide Acted;
      StaysKept(b.settings, b.store, a, r);
    }
  }

  /** The outbound half of a crash. */
  lemma CrashedStoreKeeps(s: Settings, c: Courier, crash: CourierStore.Action)
    requires Good(s, c) && UnderWay(c, crash.op) && Acted(s, c.store, crash).Serving?
    ensures var st := Acted(s, c.store, crash).store;
            var c' := Tracked(c, st);
            Sound(s, st) && LostAreJustified(st, c'.lives, c.stored) && InOrder(c') && GoneAreJustified(c')
  {
    var st := Acted(s, c.store, crash).store;
    StoreMoves(s, c, crash);
    LostStayJustified(s, c, crash);
    hide Sound, Acted, Moves, LaneHead, InOrder, GoneAreJustified, LostAreJustified, Minus, UnderWay, Justified,
        ReturnsOK, PhasesOK, HeldOK, Since;
    TrackedKeeps(c, st, c.store.next);
  }

  lemma CrashKeeps(s: Settings, c: Courier, a: Action)
    requires Good(s, c) && a.Crashed? && Enabled(s, c, a)
    ensures Good(s, Next(s, c, a))
  {
    var st := Acted(s, c.store, Crash(a.during, a.at)).store;
    assert ReturnsOK(c.back, c.stored);
    hide Good, Sound, Acted, InOrder, GoneAreJustified, LostAreJustified, UnderWay, ReturnsOK, ReturnsAfter, LaneHead,
        Minus, Since;
    CrashedStoreKeeps(s, c, Crash(a.during, a.at));
    ReturnsMove(c.back, Crash(a.returning, a.returnsAt), c.stored);
    var c' := Next(s, c, a);
    SameHistory(Tracked(c, st), c');
    assert c'.phases == map[] && c'.held == map[];
    AllIsGood(s, c');
  }

  lemma AllIsGood(s: Settings, c: Courier)
    requires Sound(s, c.store) && ReturnsOK(c.back, c.stored) && LostAreJustified(c.store, c.lives, c.stored)
    requires c.phases == map[] && c.held == map[] && InOrder(c) && GoneAreJustified(c)
    ensures Good(s, c)
  {
    hide Sound, ReturnsOK, LostAreJustified, InOrder, GoneAreJustified;
  }

  lemma ReturnOpKeeps(s: Settings, c: Courier, op: Op)
    requires Good(s, c)
    ensures Good(s, c.(back := ReturnsAfter(c.back, Do(op))))
  {
    ReturnsMove(c.back, Do(op), c.stored);
    var c' := c.(back := ReturnsAfter(c.back, Do(op)));
    hide Sound, LaneHead, InOrder, GoneAreJustified, LostAreJustified, Justified, ReturnsOK, ReturnsAfter, PhaseOK,
        HeldOK;
    SameHistory(c, c');
  }

  lemma RetireKeeps(s: Settings, c: Courier, a: Action)
    requires Good(s, c) && a.RetireHead? && Enabled(s, c, a)
    ensures Good(s, Next(s, c, a))
  {
    var op := RetireOp(c, a);
    assert PhaseOK(c.store.content.log, c.held, c.lives, c.stored, a.key, c.phases[a.key]);
    var next := Tracked(c, Step(s, c.store, op)).(phases := c.phases - {a.key});
    assert Next(s, c, a) == next;
    hide Good, Next, Tracked, LaneHead, Acceptable, Step;
    HeadInLane(c.store.content.log, a.key);
    DidKeeps(s, c, op, c.phases - {a.key});
  }

  lemma NextKeeps(s: Settings, c: Courier, a: Action)
    requires Good(s, c) && Enabled(s, c, a)
    ensures Good(s, Next(s, c, a))
  {
    hide Good, Step, Sending, Stowing, Minus, ReturnsAfter;
    match a
    case Admit(id, now, wrote) => DidKeeps(s, c, Insert(id, now, wrote), c.phases);
    case Send(key, response) => SendKeeps(s, c, key, response);
    case StoreNext(key, admissible, now, wrote) => StowKeeps(s, c, key, admissible, now, wrote);
    case PersistHold(key, wrote) => DidKeeps(s, c, SetHold(c.phases[key].hold, wrote), c.phases - {key});
    case RetireHead(_, _, _, _, _) => RetireKeeps(s, c, a);
    case Sidecar(op) => DidKeeps(s, c, op, c.phases);
    case ReturnOp(op) => ReturnOpKeeps(s, c, op);
    case Crashed(_, _, _, _) => CrashKeeps(s, c, a);
  }

  predicate Bounded(s: Settings) {
    s.maxItems >= 0 && s.maxBytes >= 0
  }

  lemma {:induction false} RunsAreGood(s: Settings, t: Settings, run: seq<Action>)
    requires Bounded(s) && Bounded(t) && Ran(s, t, run).Some?
    ensures Good(s, Ran(s, t, run).value)
  {
    if run == [] {
      EmptyIsSound(s);
      EmptyIsSound(t);
    } else {
      RunsAreGood(s, t, Front(run));
      hide Good, Next, Enabled;
      NextKeeps(s, Ran(s, t, Front(run)).value, Last(run));
    }
  }

  /** Over every run of processes, operations and crashes: nothing admitted is lost
      before it is justified. Each artifact that entered the queue is still in it, or
      left it. Whatever left did so after the channel accepted it in that very stay
      with artifacts that were all then stored; for an envelope one of them is a
      receipt that covers its sequence, and the entry that holds it is in the return
      queue until its retirement there is acknowledged. */
  lemma LeavesOnlyJustified(s: Settings, t: Settings, run: seq<Action>)
    requires Bounded(s) && Bounded(t) && Ran(s, t, run).Some?
    ensures var c := Ran(s, t, run).value;
            && (forall r | r in c.admitted :: r in c.store.content.log || r in c.gone)
            && |c.why| == |c.gone|
            && (forall i | 0 <= i < |c.gone| :: Justified(c.why[i], c.stored, c.gone[i]))
            && (forall i | 0 <= i < |c.gone| && c.gone[i].id.kind == DeliveryEnvelope ::
                  exists e :: HasReceipt(c.why[i], c.gone[i], e)
                              && (e in c.back.store.content.log || e in c.back.acked))
  {
    RunsAreGood(s, t, run);
    var c := Ran(s, t, run).value;
    hide Ran, Sound, LostAreJustified, PhasesOK, HeldOK, HasReceipt, Justified;
    forall r | r in c.admitted ensures r in c.store.content.log || r in c.gone {
      var key := KeyOf(r.id);
      LaneHas(c.admitted, key, r);
      LaneHas(c.gone, key, r);
      LaneHas(c.store.content.log, key, r);
    }
    forall i | 0 <= i < |c.gone| && c.gone[i].id.kind == DeliveryEnvelope
      ensures exists e :: HasReceipt(c.why[i], c.gone[i], e) && (e in c.back.store.content.log || e in c.back.acked)
    {
      var e := ReceiptOf(c.why[i], c.stored, c.gone[i]);
    }
  }

  /** `e` is the return queue's entry for a receipt that covers `r`, and came with an
      acceptance of it. */
  ghost predicate HasReceipt(h: History, r: Record, e: Record) {
    && (exists x :: x in h.settled && x.record == r && (r, x.artifacts) in h.accepted && e in x.returned)
    && e.id.kind == DeliveryReceipt && e.id.payload.device == r.id.payload.device
    && e.id.payload.fromSeq.Some? && e.id.payload.toSeq.Some?
    && e.id.payload.fromSeq.value <= r.id.payload.localSeq <= e.id.payload.toSeq.value
  }

  lemma ReceiptOf(h: History, stored: set<Record>, r: Record) returns (e: Record)
    requires Justified(h, stored, r) && r.id.kind == DeliveryEnvelope
    ensures e in stored && HasReceipt(h, r, e)
  {
    var x :| Settles(h, stored, x) && x.record == r;
    var a :| a in x.artifacts && Covers(r.id, a);
    var i :| 0 <= i < |x.artifacts| && x.artifacts[i] == a;
    e := x.returned[i];
    assert e in x.returned;
  }

  /** A stay in the queue begins with no history: what a record leaves with happened
      in the stay it leaves. */
  lemma NewHasNoHistory(s: Settings, c: Courier, a: Action, r: Record)
    requires Enabled(s, c, a) && r in Next(s, c, a).store.content.log && r !in c.store.content.log
    ensures var h := Next(s, c, a).lives;
            (forall x | x in h.accepted :: x.0 != r) && (forall x | x in h.settled :: x.record != r)
  {
    hide Step, Acted, Minus, ReturnsAfter, LaneHead, Acceptable, HoldFor, Find;
  }

  /** Each lane retires in admission order: what left it is the first of what
      entered it, and what is queued is the rest. */
  lemma RetiredInAdmissionOrder(s: Settings, t: Settings, run: seq<Action>, key: LaneKey)
    requires Bounded(s) && Bounded(t) && Ran(s, t, run).Some?
    ensures var c := Ran(s, t, run).value;
            LaneLog(c.admitted, key) == LaneLog(c.gone, key) + LaneLog(c.store.content.log, key)
  {
    RunsAreGood(s, t, run);
  }

  // ---------------------------------------------------------------------
  // A held head silences its lane
  // ---------------------------------------------------------------------

  lemma SentElsewhere(sent: seq<Record>, r: Record, key: LaneKey)
    requires KeyOf(r.id) != key
    ensures LaneLog(sent + [r], key) == LaneLog(sent, key)
  {
    assert Front(sent + [r]) == sent;
  }

  /** A send in any lane leaves a held one silent. */
  lemma SendSilent(c: Courier, key: LaneKey, other: LaneKey, response: Response)
    requires LaneHead(c.store.content.log, key).Some? && HeldNow(c, key, LaneHead(c.store.content.log, key).value)
    ensures LaneLog(Sending(c, other, response).sent, key) == LaneLog(c.sent, key)
    ensures other == key ==> Sending(c, other, response).phases == c.phases
    ensures key in c.held && c.held[key] == LaneHead(c.store.content.log, key).value.id ==>
              key in Sending(c, other, response).held && Sending(c, other, response).held[key] == c.held[key]
  {
    var head := LaneHead(c.store.content.log, other);
    if head.Some? && other != key {
      HeadInLane(c.store.content.log, other);
      SentElsewhere(c.sent, head.value, key);
    }
    hide LaneLog, LaneHead, Acceptable, HoldFor;
  }

  lemma OnlySendSends(s: Settings, c: Courier, a: Action)
    requires Enabled(s, c, a) && !a.Send? && !a.Crashed?
    ensures Next(s, c, a).held == c.held && Next(s, c, a).sent == c.sent
  {
    hide Step, Acted, Sending, Minus, ReturnsAfter;
  }

  lemma HeldStep(s: Settings, c: Courier, a: Action, key: LaneKey)
    requires Good(s, c) && Enabled(s, c, a) && key in c.held && !a.Crashed?
    ensures var c' := Next(s, c, a);
            key in c'.held && c'.held[key] == c.held[key] && LaneLog(c'.sent, key) == LaneLog(c.sent, key)
  {
    assert HeldOK(c.store.content.log, c.held);
    assert a.Send? ==> Next(s, c, a) == Sending(c, a.key, a.response);
    hide Good, Next, Enabled, Sending, LaneLog, LaneHead, HeldOK;
    if a.Send? {
      SendSilent(c, key, a.key, a.response);
    } else {
      OnlySendSends(s, c, a);
    }
  }

  /** A run without a crash. */
  predicate OneProcess(run: seq<Action>) {
    run == [] || (OneProcess(Front(run)) && !Last(run).Crashed?)
  }

  /** Once a lane's head is held, no later step of that process sends it or
      anything behind it. */
  lemma {:induction false} HeldIsNotSent(s: Settings, t: Settings, run: seq<Action>, more: seq<Action>, key: LaneKey)
    requires Bounded(s) && Bounded(t) && Ran(s, t, run).Some? && key in Ran(s, t, run).value.held
    requires Ran(s, t, run + more).Some? && OneProcess(more)
    ensures var c, c' := Ran(s, t, run).value, Ran(s, t, run + more).value;
            key in c'.held && c'.held[key] == c.held[key] && LaneLog(c'.sent, key) == LaneLog(c.sent, key)
  {
    if more == [] {
      assert run + more == run;
    } else {
      assert Front(run + more) == run + Front(more) && Last(run + more) == Last(more);
      HeldIsNotSent(s, t, run, Front(more), key);
      RunsAreGood(s, t, run + Front(more));
      hide Good, Next, Enabled, LaneLog;
      HeldStep(s, Ran(s, t, run + Front(more)).value, Last(more), key);
    }
  }

  /** The lane's head has its record and its hold on disk, and is not being
      delivered. */
  ghost predicate HeldOnDisk(c: Courier, key: LaneKey, r: Record) {
    && LaneHead(c.store.content.log, key) == Some(r)
    && RecordName(r.id) in c.store.disk && HoldName(r.id) in c.store.disk
    && (key in c.phases ==> c.phases[key].Holding?)
  }

  lemma RetirementLeavesHold(st: Store, op: Op, d: Disk, id: Id)
    requires op.Retire? && op.id != id && HoldName(id) in st.disk
    requires d in RetirePoints(st, op) || d == st.disk || d == Retiring(st, op).disk
    ensures HoldName(id) in d
  {
    hide Find;
  }

  lemma HoldStays(s: Settings, st: Store, op: Op, d: Disk, id: Id)
    requires d in CrashPoints(s, st, op) && HoldName(id) in st.disk && !(op.Retire? && op.id == id)
    ensures HoldName(id) in d
  {
    if op.Retire? {
      RetirementLeavesHold(st, op, d, id);
    } else {
      hide Writes;
    }
  }

  lemma HoldIsKept(s: Settings, st: Store, a: CourierStore.Action, id: Id)
    requires Acted(s, st, a).Serving? && HoldName(id) in st.disk && !(a.op.Retire? && a.op.id == id)
    ensures HoldName(id) in Acted(s, st, a).store.disk
  {
    if a.Do? {
      LogAfter(s, st, a.op);
      hide Step, CrashPoints;
      HoldStays(s, st, a.op, Acted(s, st, a).store.disk, id);
    } else {
      hide Step, CrashPoints;
      HoldStays(s, st, a.op, a.at, id);
    }
  }

  lemma NotRetiring(s: Settings, c: Courier, op: Op, key: LaneKey, r: Record)
    requires Good(s, c) && UnderWay(c, op) && HeldOnDisk(c, key, r)
    ensures !(op.Retire? && op.id == r.id)
  {
    hide Sound, InOrder, GoneAreJustified, LostAreJustified, Acceptable, LaneHead;
    if op.Retire? && op.id == r.id {
      var k :| k in c.phases && c.phases[k].Storing? && c.phases[k].record.id == op.id
          && |c.phases[k].returned| == |c.phases[k].artifacts|;
      assert PhaseOK(c.store.content.log, c.held, c.lives, c.stored, k, c.phases[k]);
      HeadInLane(c.store.content.log, k);
      HeadInLane(c.store.content.log, key);
    }
  }

  lemma StoreKeepsHold(s: Settings, c: Courier, a: CourierStore.Action, key: LaneKey, r: Record)
    requires Good(s, c) && UnderWay(c, a.op) && Acted(s, c.store, a).Serving? && HeldOnDisk(c, key, r)
    ensures var st := Acted(s, c.store, a).store;
            LaneHead(st.content.log, key) == Some(r) && RecordName(r.id) in st.disk && HoldName(r.id) in st.disk
  {
    hide Step, Acted, Moves, LaneHead, CrashPoints, UnderWay, Sound, InOrder, GoneAreJustified, LostAreJustified,
        PhasesOK, HeldOK;
    var st := Acted(s, c.store, a).store;
    NotRetiring(s, c, a.op, key, r);
    HeadInLane(c.store.content.log, key);
    StoreMoves(s, c, a);
    StaysKept(s, c.store, a, r);
    HoldIsKept(s, c.store, a, r.id);
    HeadKept(c.store.content.log, st.content.log, c.store.next, key);
  }

  lemma HeldOnDiskDid(s: Settings, c: Courier, op: Op, key: LaneKey, r: Record, phases: map<LaneKey, Phase>)
    requires Good(s, c) && UnderWay(c, op) && HeldOnDisk(c, key, r)
    requires key in phases ==> key in c.phases && phases[key] == c.phases[key]
    ensures HeldOnDisk(Tracked(c, Step(s, c.store, op)).(phases := phases), key, r)
  {
    assert Acted(s, c.store, Do(op)) == Serving(Step(s, c.store, op));
    hide Step, Good, UnderWay, Acted, LaneHead, Minus;
    StoreKeepsHold(s, c, Do(op), key, r);
  }

  lemma HeldOnDiskStep(s: Settings, c: Courier, a: Action, key: LaneKey, r: Record)
    requires Good(s, c) && Enabled(s, c, a) && HeldOnDisk(c, key, r)
    ensures HeldOnDisk(Next(s, c, a), key, r) && LaneLog(Next(s, c, a).sent, key) == LaneLog(c.sent, key)
  {
    match a
    case Send(other, response) =>
      SidecarsAreKnown(s, c.store, r.id);
      hide Good, Sending, LaneLog, LaneHead;
      HeldOnDiskSent(c, key, r, other, response);
    case StoreNext(_, _, _, _) => HeldOnDiskStowed(s, c, key, r, a);
    case ReturnOp(_) => HeldOnDiskReturned(s, c, key, r, a);
    case Crashed(_, _, _, _) => HeldOnDiskCrashed(s, c, key, r, a);
    case _ => HeldOnDiskOp(s, c, a, key, r);
  }

  lemma HeldOnDiskOp(s: Settings, c: Courier, a: Action, key: LaneKey, r: Record)
    requires Good(s, c) && Enabled(s, c, a) && HeldOnDisk(c, key, r)
    requires a.Admit? || a.PersistHold? || a.RetireHead? || a.Sidecar?
    ensures HeldOnDisk(Next(s, c, a), key, r) && LaneLog(Next(s, c, a).sent, key) == LaneLog(c.sent, key)
  {
    hide Good, Step, Minus, LaneLog, LaneHead, HeldOnDisk;
    match a
    case Admit(id, now, wrote) => HeldOnDiskDid(s, c, Insert(id, now, wrote), key, r, c.phases);
    case PersistHold(other, wrote) => HeldOnDiskDid(s, c, SetHold(c.phases[other].hold, wrote), key, r,
        c.phases - {other});
    case RetireHead(other, _, _, _, _) => HeldOnDiskDid(s, c, RetireOp(c, a), key, r, c.phases - {other});
    case Sidecar(op) => HeldOnDiskDid(s, c, op, key, r, c.phases);
  }

  lemma HeldOnDiskSent(c: Courier, key: LaneKey, r: Record, other: LaneKey, response: Response)
    requires HeldOnDisk(c, key, r) && r.id in c.store.content.holds && other !in c.phases
    ensures HeldOnDisk(Sending(c, other, response), key, r)
            && LaneLog(Sending(c, other, response).sent, key) == LaneLog(c.sent, key)
  {
    hide LaneLog, LaneHead, Acceptable, HoldFor;
    SendSilent(c, key, other, response);
  }

  lemma HeldOnDiskStowed(s: Settings, c: Courier, key: LaneKey, r: Record, a: Action)
    requires HeldOnDisk(c, key, r) && a.StoreNext? && MayStore(c, a.key)
    ensures HeldOnDisk(Next(s, c, a), key, r) && LaneLog(Next(s, c, a).sent, key) == LaneLog(c.sent, key)
  {
    hide LaneLog, LaneHead, ReturnsAfter, Find;
  }

  lemma HeldOnDiskReturned(s: Settings, c: Courier, key: LaneKey, r: Record, a: Action)
    requires HeldOnDisk(c, key, r) && a.ReturnOp? && Enabled(s, c, a)
    ensures HeldOnDisk(Next(s, c, a), key, r) && LaneLog(Next(s, c, a).sent, key) == LaneLog(c.sent, key)
  {
    hide LaneLog, LaneHead, ReturnsAfter;
  }

  lemma HeldOnDiskCrashed(s: Settings, c: Courier, key: LaneKey, r: Record, a: Action)
    requires Good(s, c) && a.Crashed? && Enabled(s, c, a) && HeldOnDisk(c, key, r)
    ensures HeldOnDisk(Next(s, c, a), key, r) && LaneLog(Next(s, c, a).sent, key) == LaneLog(c.sent, key)
  {
    hide Good, UnderWay, Acted, LaneHead, Minus, ReturnsAfter;
    StoreKeepsHold(s, c, Crash(a.during, a.at), key, r);
  }

  /** Nor does any later process, whatever crashes come between: a head with its
      hold and its record on disk keeps both, and its lane sends nothing. */
  lemma {:induction false} PersistedHoldIsNotSent(s: Settings, t: Settings, run: seq<Action>, more: seq<Action>,
      key: LaneKey, r: Record)
    requires Bounded(s) && Bounded(t) && Ran(s, t, run).Some? && HeldOnDisk(Ran(s, t, run).value, key, r)
    requires Ran(s, t, run + more).Some?
    ensures HeldOnDisk(Ran(s, t, run + more).value, key, r)
    ensures LaneLog(Ran(s, t, run + more).value.sent, key) == LaneLog(Ran(s, t, run).value.sent, key)
  {
    if more == [] {
      assert run + more == run;
    } else {
      assert Front(run + more) == run + Front(more) && Last(run + more) == Last(more);
      PersistedHoldIsNotSent(s, t, run, Front(more), key, r);
      RunsAreGood(s, t, run + Front(more));
      hide Good, Next, Enabled, LaneLog, HeldOnDisk;
      HeldOnDiskStep(s, Ran(s, t, run + Front(more)).value, Last(more), key, r);
    }
  }
}
