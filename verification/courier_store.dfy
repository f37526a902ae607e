/** The durable queue as one store: what is in memory, what is on disk, and every
    state the directory passes through while an operation runs. */
module CourierStore {
  import opened Base
  import opened CourierQueue
  import opened CourierCapacity
  import opened CourierDirectory
  import opened Refusal

  datatype Store = Store(content: Content, next: int, disk: Disk)

  /** How an atomic write ends. A write that fails commits nothing; it may leave its
      temporary file behind. */
  datatype Wrote = Committed | Failed(leftover: bool)

  /** How a removal ends: unlinked and synced, not unlinked, or unlinked without
      the directory's sync being confirmed. */
  datatype Removed = Gone | NotUnlinked | NotSynced

  datatype Op =
    | Insert(id: Id, now: int, wrote: Wrote)
    | SetHold(hold: HoldRecord<Id>, wrote: Wrote)
    | SetBackoff(backoff: Backoff, wrote: Wrote)
    | ClearBackoff(id: Id, removed: Removed)
    | Retire(id: Id, holdRemoved: Removed, backoffRemoved: Removed, removed: Removed, restored: Wrote)

  function Without(log: seq<Record>, id: Id): seq<Record> {
    if log == [] then [] else Without(Front(log), id) + if Last(log).id == id then [] else [Last(log)]
  }

  function Find(log: seq<Record>, id: Id): Option<Record> {
    if log == [] then None else if Last(log).id == id then Some(Last(log)) else Find(Front(log), id)
  }

  function Staged(disk: Disk): Disk {
    disk[TempName := Partial]
  }

  function Written(disk: Disk, name: Name, file: File, w: Wrote): Disk {
    if w.Committed? then disk[name := file] else if w.leftover then Staged(disk) else disk
  }

  function Unlinked(disk: Disk, name: Name, r: Removed): Disk {
    if r == NotUnlinked then disk else disk - {name}
  }

  // ---------------------------------------------------------------------
  // The operations
  // ---------------------------------------------------------------------

  function Versioned(b: Backoff): Backoff {
    b.(v := if b.retryAfter.Some? then 2 else 1)
  }

  predicate Inserts(s: Settings, st: Store, id: Id, now: int) {
    && id.payload.size > 0
    && Find(st.content.log, id).None?
    && Admission(s, st.content.log, Record(id, st.next, now)) == Admitted
  }

  predicate Writes(s: Settings, st: Store, op: Op) {
    match op
    case Insert(id, now, _) => Inserts(s, st, id, now)
    case SetHold(h, _) => Find(st.content.log, h.record).Some? && ValidHold(h.(v := 1), h.record)
    case SetBackoff(b, _) => Find(st.content.log, b.record).Some? && ValidBackoff(Versioned(b))
    case _ => false
  }

  function NameOf(op: Op): Name {
    match op
    case Insert(id, _, _) => RecordName(id)
    case SetHold(h, _) => HoldName(h.record)
    case SetBackoff(b, _) => BackoffName(b.record)
    case ClearBackoff(id, _) => BackoffName(id)
    case Retire(id, _, _, _, _) => RecordName(id)
  }

  function FileOf(st: Store, op: Op): File {
    match op
    case Insert(id, now, _) => RecordFile(1, id, Record(id, st.next, now))
    case SetHold(h, _) => HoldFile(h.(v := 1))
    case SetBackoff(b, _) => BackoffFile(Versioned(b))
    case _ => Partial
  }

  /** Memory after a write that committed. */
  function Remembered(st: Store, op: Op): Store {
    var c := st.content;
    match op
    case Insert(id, now, _) => st.(content := c.(log := c.log + [Record(id, st.next, now)]), next := st.next + 1)
    case SetHold(h, _) => st.(content := c.(holds := c.holds[h.record := h.(v := 1)]))
    case SetBackoff(b, _) => st.(content := c.(backoffs := c.backoffs[b.record := Versioned(b)]))
    case _ => st
  }

  function Writing(s: Settings, st: Store, op: Op): Store
    requires op.Insert? || op.SetHold? || op.SetBackoff?
  {
    if !Writes(s, st, op) then st
    else
      var disk := Written(st.disk, NameOf(op), FileOf(st, op), op.wrote);
      (if op.wrote.Committed? then Remembered(st, op) else st).(disk := disk)
  }

  /** Removing a sidecar, if memory has one; whether the retirement may go on. */
  function DropHold(st: Store, id: Id, r: Removed): (Store, bool) {
    if id !in st.content.holds then (st, true)
    else
      var st' := st.(disk := Unlinked(st.disk, HoldName(id), r));
      if r == Gone then (st'.(content := st.content.(holds := st.content.holds - {id})), true) else (st', false)
  }

  function DropBackoff(st: Store, id: Id, r: Removed): (Store, bool) {
    if id !in st.content.backoffs then (st, true)
    else
      var st' := st.(disk := Unlinked(st.disk, BackoffName(id), r));
      if r == Gone then (st'.(content := st.content.(backoffs := st.content.backoffs - {id})), true) else (st', false)
  }

  /** Removing the record's file, and writing it back when its removal could not be
      confirmed. */
  function DropRecord(st: Store, record: Record, r: Removed, restored: Wrote): Store {
    var name := RecordName(record.id);
    if name !in st.disk || r == NotUnlinked then st
    else if r == NotSynced then
      st.(disk := Written(st.disk - {name}, name, RecordFile(1, record.id, record), restored))
    else
      st.(disk := st.disk - {name}, content := st.content.(log := Without(st.content.log, record.id)))
  }

  function Retiring(st: Store, op: Op): Store
    requires op.Retire?
  {
    var found := Find(st.content.log, op.id);
    if found.None? then st
    else
      var (st1, on1) := DropHold(st, op.id, op.holdRemoved);
      if !on1 then st1
      else
        var (st2, on2) := DropBackoff(st1, op.id, op.backoffRemoved);
        if !on2 then st2 else DropRecord(st2, found.value, op.removed, op.restored)
  }

  function Step(s: Settings, st: Store, op: Op): Store {
    match op
    case ClearBackoff(id, removed) => DropBackoff(st, id, removed).0
    case Retire(_, _, _, _, _) => Retiring(st, op)
    case _ => Writing(s, st, op)
  }

  // ---------------------------------------------------------------------
  // Where a crash can cut an operation
  // ---------------------------------------------------------------------

  /** Every state of the directory while an operation runs: before it, with a
      temporary file staged, between its removals, and after it. */
  function CrashPoints(s: Settings, st: Store, op: Op): set<Disk> {
    {st.disk, Step(s, st, op).disk} +
    (if (op.Insert? || op.SetHold? || op.SetBackoff?) && Writes(s, st, op) then {Staged(st.disk)}
     else if op.Retire? && Find(st.content.log, op.id).Some? then RetirePoints(st, op)
     else {})
  }

  function RetirePoints(st: Store, op: Op): set<Disk>
    requires op.Retire?
  {
    var (st1, on1) := DropHold(st, op.id, op.holdRemoved);
    var (st2, on2) := DropBackoff(st1, op.id, op.backoffRemoved);
    {st1.disk} + if !on1 then {}
                 else {st2.disk} + if !on2 || op.removed == NotUnlinked then {}
                 else {st2.disk - {RecordName(op.id)}, Staged(st2.disk - {RecordName(op.id)})}
  }

  /** Memory and directory agree: every file is one memory accounts for, and the
      next sequence is past every queued one. */
  ghost predicate Sound(s: Settings, st: Store) {
    && ContentOK(s, st.content)
    && Mirrors(st.disk, st.content)
    && st.next > 0
    && (forall r | r in st.content.log :: r.seqno < st.next)
  }

  /** Every queued record has its file. */
  ghost predicate Whole(st: Store) {
    forall r | r in st.content.log :: RecordName(r.id) in st.disk
  }

  // ---------------------------------------------------------------------
  // Every operation keeps the store sound
  // ---------------------------------------------------------------------

  lemma {:induction false} FindsQueued(log: seq<Record>, id: Id)
    ensures Find(log, id).Some? <==> Queued(log, id)
    ensures Find(log, id).Some? ==> Find(log, id).value in log && Find(log, id).value.id == id
  {
    if log != [] {
      FindsQueued(Front(log), id);
      assert log == Front(log) + [Last(log)];
      if Queued(log, id) && Last(log).id != id {
        var i :| 0 <= i < |log| && log[i].id == id;
        assert Front(log)[i].id == id;
      }
    }
  }

  lemma {:induction false} WithoutHas(log: seq<Record>, id: Id, r: Record)
    ensures r in Without(log, id) <==> r in log && r.id != id
  {
    if log != [] {
      WithoutHas(Front(log), id, r);
      assert log == Front(log) + [Last(log)];
    }
  }

  lemma {:induction false} WithoutSums(log: seq<Record>, id: Id)
    ensures |Without(log, id)| <= |log|
    ensures Sum(Without(log, id), Everyone, true) <= Sum(log, Everyone, true)
  {
    hide Size;
    if log != [] {
      WithoutSums(Front(log), id);
      SumAppend(Without(Front(log), id), Last(log), Everyone, true);
      assert Without(Front(log), id) + [] == Without(Front(log), id);
    }
  }

  lemma {:induction false} WithoutOrdered(log: seq<Record>, id: Id)
    requires Ordered(log)
    ensures Ordered(Without(log, id))
  {
    if log != [] {
      var kept := Without(Front(log), id);
      WithoutOrdered(Front(log), id);
      forall i | 0 <= i < |kept| ensures kept[i].seqno < Last(log).seqno && kept[i].id != Last(log).id {
        WithoutHas(Front(log), id, kept[i]);
      }
    }
  }

  lemma StagingKeepsFiles(disk: Disk, c: Content)
    requires Mirrors(disk, c)
    ensures Mirrors(Staged(disk), c)
  {
    forall name | name in Staged(disk) ensures FileMatches(name, Staged(disk)[name], c) {
      if name != TempName { assert FileMatches(name, disk[name], c); }
    }
  }

  lemma UnlinkingKeepsFiles(disk: Disk, c: Content, name: Name)
    requires Mirrors(disk, c)
    ensures Mirrors(disk - {name}, c)
  {
    forall n | n in disk - {name} ensures FileMatches(n, (disk - {name})[n], c) { assert FileMatches(n, disk[n], c); }
  }

  lemma WritingKeepsFiles(disk: Disk, c: Content, c': Content, name: Name, file: File)
    requires Mirrors(disk, c) && FileMatches(name, file, c')
    requires forall n | n in disk && n != name && FileMatches(n, disk[n], c) :: FileMatches(n, disk[n], c')
    ensures Mirrors(disk[name := file], c')
  {
    var disk' := disk[name := file];
    forall n | n in disk' ensures FileMatches(n, disk'[n], c') {
      if n != name { assert FileMatches(n, disk[n], c); }
    }
  }

  lemma AppendedIsOK(s: Settings, c: Content, r: Record)
    requires ContentOK(s, c) && RecordOK(r)
    requires Find(c.log, r.id).None? && Admission(s, c.log, r) == Admitted
             && (forall q | q in c.log :: q.seqno < r.seqno)
    ensures ContentOK(s, c.(log := c.log + [r]))
  {
    FindsQueued(c.log, r.id);
    hide Sum, Find, ShareHasRoom, Size;
    SumAppend(c.log, r, Everyone, true);
    var log := c.log + [r];
    assert Ordered(log) by {
      forall i | 0 <= i < |c.log| ensures c.log[i].seqno < r.seqno && c.log[i].id != r.id { assert c.log[i] in c.log; }
    }
    forall id | Queued(c.log, id) ensures Queued(log, id) {
      var i :| 0 <= i < |c.log| && c.log[i].id == id;
      assert log[i].id == id;
    }
  }

  lemma WriteKeepsContent(s: Settings, st: Store, op: Op)
    requires Sound(s, st) && (op.Insert? || op.SetHold? || op.SetBackoff?) && Writes(s, st, op)
    ensures ContentOK(s, Remembered(st, op).content)
    ensures Remembered(st, op).next > 0 && forall r | r in Remembered(st, op).content.log ::
            r.seqno < Remembered(st, op).next
  {
    hide Sum, Find, ShareHasRoom, Size, Admission;
    match op
    case Insert(id, now, _) =>
      assert now > 0 by { hide *; AdmittedClock(s, st.content.log, Record(id, st.next, now)); }
      AppendedIsOK(s, st.content, Record(id, st.next, now));
    case SetHold(h, _) => FindsQueued(st.content.log, h.record);
    case SetBackoff(b, _) => FindsQueued(st.content.log, b.record);
    case _ =>
  }

  lemma AdmittedClock(s: Settings, log: seq<Record>, r: Record)
    requires Admission(s, log, r) == Admitted
    ensures r.at > 0
  {
  }

  lemma WriteKeepsFiles(s: Settings, st: Store, op: Op)
    requires Mirrors(st.disk, st.content) && (op.Insert? || op.SetHold? || op.SetBackoff?)
    ensures Mirrors(st.disk[NameOf(op) := FileOf(st, op)], Remembered(st, op).content)
  {
    WritingKeepsFiles(st.disk, st.content, Remembered(st, op).content, NameOf(op), FileOf(st, op));
  }

  lemma WritingKeeps(s: Settings, st: Store, op: Op)
    requires Sound(s, st) && (op.Insert? || op.SetHold? || op.SetBackoff?)
    ensures Sound(s, Writing(s, st, op))
  {
    hide Writes, ContentOK, Mirrors, Remembered;
    if Writes(s, st, op) {
      StagingKeepsFiles(st.disk, st.content);
      WriteKeepsContent(s, st, op);
      WriteKeepsFiles(s, st, op);
    }
  }

  lemma FewerSidecars(s: Settings, c: Content, id: Id)
    requires ContentOK(s, c)
    ensures ContentOK(s, c.(holds := c.holds - {id})) && ContentOK(s, c.(backoffs := c.backoffs - {id}))
  {
    hide Sum, Ordered, Queued, ValidHold, ValidBackoff;
  }

  lemma UnlinkedSidecars(disk: Disk, c: Content, id: Id)
    requires Mirrors(disk, c)
    ensures Mirrors(disk - {HoldName(id)}, c.(holds := c.holds - {id}))
    ensures Mirrors(disk - {BackoffName(id)}, c.(backoffs := c.backoffs - {id}))
  {
    var d, c1 := disk - {HoldName(id)}, c.(holds := c.holds - {id});
    forall n | n in d ensures FileMatches(n, d[n], c1) { assert FileMatches(n, disk[n], c); }
    var e, c2 := disk - {BackoffName(id)}, c.(backoffs := c.backoffs - {id});
    forall n | n in e ensures FileMatches(n, e[n], c2) { assert FileMatches(n, disk[n], c); }
  }

  lemma DropHoldKeeps(s: Settings, st: Store, id: Id, r: Removed)
    requires Sound(s, st)
    ensures Sound(s, DropHold(st, id, r).0) && Mirrors(DropHold(st, id, r).0.disk, st.content)
  {
    hide ContentOK, Mirrors;
    UnlinkingKeepsFiles(st.disk, st.content, HoldName(id));
    FewerSidecars(s, st.content, id);
    UnlinkedSidecars(st.disk, st.content, id);
  }

  lemma DropBackoffKeeps(s: Settings, st: Store, id: Id, r: Removed)
    requires Sound(s, st)
    ensures Sound(s, DropBackoff(st, id, r).0) && Mirrors(DropBackoff(st, id, r).0.disk, st.content)
  {
    hide ContentOK, Mirrors;
    UnlinkingKeepsFiles(st.disk, st.content, BackoffName(id));
    FewerSidecars(s, st.content, id);
    UnlinkedSidecars(st.disk, st.content, id);
  }

  /** No sidecar of `id` is in memory, so none is on disk: retirement removes both
      before it removes the record. */
  predicate NoSidecar(st: Store, id: Id) {
    && id !in st.content.holds && id !in st.content.backoffs
    && HoldName(id) !in st.disk && BackoffName(id) !in st.disk
  }

  lemma WithoutIsOK(s: Settings, c: Content, id: Id)
    requires ContentOK(s, c) && id !in c.holds && id !in c.backoffs
    ensures ContentOK(s, c.(log := Without(c.log, id)))
  {
    hide Sum, Without;
    WithoutSums(c.log, id);
    WithoutOrdered(c.log, id);
    forall r | r in Without(c.log, id) ensures RecordOK(r) { WithoutHas(c.log, id, r); }
    forall other | other != id && Queued(c.log, other) ensures Queued(Without(c.log, id), other) {
      var i :| 0 <= i < |c.log| && c.log[i].id == other;
      WithoutHas(c.log, id, c.log[i]);
      QueuedIn(Without(c.log, id), c.log[i]);
    }
  }

  lemma UnlinkedRecord(disk: Disk, c: Content, id: Id)
    requires Mirrors(disk, c)
    ensures Mirrors(disk - {RecordName(id)}, c.(log := Without(c.log, id)))
  {
    var d, c1 := disk - {RecordName(id)}, c.(log := Without(c.log, id));
    hide Without;
    forall n | n in d ensures FileMatches(n, d[n], c1) {
      assert FileMatches(n, disk[n], c);
      if n.RecordName? { WithoutHas(c.log, id, disk[n].record); }
    }
  }

  lemma DropRecordKeeps(s: Settings, st: Store, record: Record, r: Removed, restored: Wrote)
    requires Sound(s, st) && record in st.content.log && NoSidecar(st, record.id)
    ensures Sound(s, DropRecord(st, record, r, restored))
  {
    hide ContentOK, Mirrors, Without;
    var name, file, c := RecordName(record.id), RecordFile(1, record.id, record), st.content;
    var d := st.disk - {name};
    UnlinkingKeepsFiles(st.disk, c, name);
    StagingKeepsFiles(d, c);
    WritingKeepsFiles(d, c, c, name, file);
    WithoutIsOK(s, c, record.id);
    UnlinkedRecord(st.disk, c, record.id);
    forall q | q in Without(c.log, record.id) ensures q in c.log { WithoutHas(c.log, record.id, q); }
  }

  lemma SidecarsAreKnown(s: Settings, st: Store, id: Id)
    requires Sound(s, st)
    ensures HoldName(id) in st.disk ==> id in st.content.holds
    ensures BackoffName(id) in st.disk ==> id in st.content.backoffs
  {
    if HoldName(id) in st.disk { assert FileMatches(HoldName(id), st.disk[HoldName(id)], st.content); }
    if BackoffName(id) in st.disk { assert FileMatches(BackoffName(id), st.disk[BackoffName(id)], st.content); }
  }

  /** The two stages of a retirement before its record is removed. */
  lemma SidecarsGoFirst(s: Settings, st: Store, id: Id, holdRemoved: Removed, backoffRemoved: Removed)
    requires Sound(s, st)
    ensures var (st1, on1) := DropHold(st, id, holdRemoved);
            var (st2, on2) := DropBackoff(st1, id, backoffRemoved);
            && Sound(s, st1) && Sound(s, st2)
            && st2.content.log == st1.content.log == st.content.log && st2.next == st1.next == st.next
            && (on1 && on2 ==> NoSidecar(st2, id))
  {
    hide ContentOK, Mirrors;
    var st1 := DropHold(st, id, holdRemoved).0;
    SidecarsAreKnown(s, st, id);
    DropHoldKeeps(s, st, id, holdRemoved);
    DropBackoffKeeps(s, st1, id, backoffRemoved);
  }

  lemma RetiringKeeps(s: Settings, st: Store, op: Op)
    requires Sound(s, st) && op.Retire?
    ensures Sound(s, Retiring(st, op))
  {
    hide Sound, DropHold, DropBackoff, NoSidecar, DropRecord;
    var found := Find(st.content.log, op.id);
    FindsQueued(st.content.log, op.id);
    hide Find;
    SidecarsGoFirst(s, st, op.id, op.holdRemoved, op.backoffRemoved);
    var (st1, on1) := DropHold(st, op.id, op.holdRemoved);
    var (st2, on2) := DropBackoff(st1, op.id, op.backoffRemoved);
    if found.Some? && on1 && on2 {
      DropRecordKeeps(s, st2, found.value, op.removed, op.restored);
    }
  }

  /** Every operation, however its writes and removals end, leaves memory
      consistent and every file on disk one that memory accounts for. */
  lemma StepKeeps(s: Settings, st: Store, op: Op)
    requires Sound(s, st)
    ensures Sound(s, Step(s, st, op))
  {
    hide Sound, Retiring, Writing, DropBackoff;
    match op
    case ClearBackoff(id, removed) => DropBackoffKeeps(s, st, id, removed);
    case Retire(_, _, _, _, _) => RetiringKeeps(s, st, op);
    case _ => WritingKeeps(s, st, op);
  }

  // ---------------------------------------------------------------------
  // Sidecars never outlive their records
  // ---------------------------------------------------------------------

  lemma OrphansUnderWrites(disk: Disk, id: Id, file: File)
    requires !Orphaned(disk)
    ensures !Orphaned(Staged(disk))
    ensures !Orphaned(disk[RecordName(id) := file])
    ensures !Orphaned(disk - {HoldName(id)}) && !Orphaned(disk - {BackoffName(id)})
    ensures HoldName(id) !in disk && BackoffName(id) !in disk ==> !Orphaned(disk - {RecordName(id)})
  {
  }

  lemma OrphansUnderSidecars(disk: Disk, id: Id, file: File)
    requires !Orphaned(disk)
    ensures Orphaned(disk[HoldName(id) := file]) <==> RecordName(id) !in disk
    ensures Orphaned(disk[BackoffName(id) := file]) <==> RecordName(id) !in disk
  {
    var h, b := disk[HoldName(id) := file], disk[BackoffName(id) := file];
    if RecordName(id) !in disk {
      assert HoldName(id) in h && RecordName(id) !in h;
      assert BackoffName(id) in b && RecordName(id) !in b;
    }
  }

  /** The operation commits a hold or back-off for a record whose file is missing. */
  predicate StrandsSidecar(s: Settings, st: Store, op: Op) {
    (op.SetHold? || op.SetBackoff?) && Writes(s, st, op) && op.wrote.Committed? && RecordName(NameOf(op).id) !in st.disk
  }

  /** The states a retirement passes through, and the one it ends in. */
  lemma RetirementStrandsNothing(s: Settings, st: Store, op: Op, d: Disk)
    requires Sound(s, st) && !Orphaned(st.disk) && op.Retire? && Find(st.content.log, op.id).Some?
    requires d in RetirePoints(st, op) || d == Retiring(st, op).disk
    ensures !Orphaned(d)
  {
    hide Sound, Orphaned, Find;
    SidecarsGoFirst(s, st, op.id, op.holdRemoved, op.backoffRemoved);
    FindsQueued(st.content.log, op.id);
    var (st1, on1) := DropHold(st, op.id, op.holdRemoved);
    var (st2, on2) := DropBackoff(st1, op.id, op.backoffRemoved);
    OrphansUnderWrites(st.disk, op.id, Partial);
    OrphansUnderWrites(st1.disk, op.id, Partial);
    if on1 && on2 {
      var record := Find(st.content.log, op.id).value;
      OrphansUnderWrites(st2.disk, op.id, Partial);
      OrphansUnderWrites(st2.disk - {RecordName(op.id)}, op.id, RecordFile(1, op.id, record));
    }
  }

  lemma CrashPointsAreFree(s: Settings, st: Store, op: Op, d: Disk)
    requires Sound(s, st) && !Orphaned(st.disk) && !StrandsSidecar(s, st, op) && d in CrashPoints(s, st, op)
    ensures !Orphaned(d)
  {
    hide Sound, Orphaned, Writes, Find, Retiring, RetirePoints;
    if op.Retire? {
      if Find(st.content.log, op.id).Some? {
        if d != st.disk { RetirementStrandsNothing(s, st, op, d); }
      } else {
        assert Retiring(st, op) == st by { hide *; NothingToRetire(st, op); }
      }
    } else if op.ClearBackoff? {
      OrphansUnderWrites(st.disk, op.id, Partial);
    } else {
      OrphansUnderWrites(st.disk, NameOf(op).id, FileOf(st, op));
      OrphansUnderSidecars(st.disk, NameOf(op).id, FileOf(st, op));
    }
  }

  lemma NothingToRetire(st: Store, op: Op)
    requires op.Retire? && Find(st.content.log, op.id).None?
    ensures Retiring(st, op) == st
  {
  }

  // ---------------------------------------------------------------------
  // Every crash point loads
  // ---------------------------------------------------------------------

  lemma RetirementMirrors(s: Settings, st: Store, op: Op, d: Disk)
    requires Sound(s, st) && op.Retire? && d in RetirePoints(st, op)
    ensures Mirrors(d, st.content)
  {
    hide Sound, Mirrors, DropHold, DropBackoff;
    var (st1, on1) := DropHold(st, op.id, op.holdRemoved);
    var (st2, on2) := DropBackoff(st1, op.id, op.backoffRemoved);
    DropHoldKeeps(s, st, op.id, op.holdRemoved);
    DropBackoffMirrors(s, st, st1, op.id, op.backoffRemoved);
    UnlinkingKeepsFiles(st2.disk, st.content, RecordName(op.id));
    StagingKeepsFiles(st2.disk - {RecordName(op.id)}, st.content);
  }

  lemma DropBackoffMirrors(s: Settings, st: Store, st1: Store, id: Id, r: Removed)
    requires Mirrors(st1.disk, st.content)
    ensures Mirrors(DropBackoff(st1, id, r).0.disk, st.content)
  {
    hide Mirrors;
    UnlinkingKeepsFiles(st1.disk, st.content, BackoffName(id));
  }

  /** At every crash point, the files are those of memory before or after. */
  lemma CrashPointsMirror(s: Settings, st: Store, op: Op, d: Disk)
    requires Sound(s, st) && d in CrashPoints(s, st, op)
    ensures Mirrors(d, st.content) || Mirrors(d, Step(s, st, op).content)
    ensures op.Retire? && d != Step(s, st, op).disk ==> Mirrors(d, st.content)
  {
    StepKeeps(s, st, op);
    StagingKeepsFiles(st.disk, st.content);
    hide Mirrors, ContentOK, Writes, Find, Step, RetirePoints;
    if op.Retire? && d in RetirePoints(st, op) { RetirementMirrors(s, st, op, d); }
  }

  lemma MirroredLoads(s: Settings, disk: Disk, c: Content)
    requires ContentOK(s, c) && Mirrors(disk, c) && !Orphaned(disk)
    ensures Loadable(s, disk) && Loads(s, disk, Stored(disk, c))
  {
    LoadsUnlessOrphaned(s, disk, c);
  }

  /** At every crash point of an insert, hold, back-off and retirement the
      directory loads, and no hold or back-off outlives its record, exactly unless
      the operation writes a sidecar beside a record whose file is missing. */
  lemma CrashPointsLoad(s: Settings, st: Store, op: Op)
    requires Sound(s, st) && !Orphaned(st.disk)
    ensures (forall d | d in CrashPoints(s, st, op) :: Loadable(s, d) && !Orphaned(d)) <==> !StrandsSidecar(s, st, op)
  {
    StepKeeps(s, st, op);
    if StrandsSidecar(s, st, op) {
      StrandedRefuses(s, st, op);
    } else {
      forall d | d in CrashPoints(s, st, op) ensures Loadable(s, d) && !Orphaned(d) {
        hide Mirrors, ContentOK, Orphaned, Loadable, CrashPoints, Step, StrandsSidecar;
        CrashPointsAreFree(s, st, op, d);
        CrashPointsMirror(s, st, op, d);
        if Mirrors(d, st.content) { MirroredLoads(s, d, st.content); }
        else { MirroredLoads(s, d, Step(s, st, op).content); }
      }
    }
  }

  lemma StrandedRefuses(s: Settings, st: Store, op: Op)
    requires Sound(s, st) && !Orphaned(st.disk) && StrandsSidecar(s, st, op)
    ensures Step(s, st, op).disk in CrashPoints(s, st, op) && !Loadable(s, Step(s, st, op).disk)
  {
    hide Sound, Orphaned, Writes, Loadable, FileOf;
    var d := Step(s, st, op).disk;
    OrphansUnderSidecars(st.disk, NameOf(op).id, FileOf(st, op));
    if Loadable(s, d) { OrphanRefuses(s, d); }
  }

  // ---------------------------------------------------------------------
  // What a crash point loads
  // ---------------------------------------------------------------------

  lemma {:induction false} OnDiskBut(log: seq<Record>, disk: Disk, id: Id)
    requires forall r | r in log && r.id != id :: RecordName(r.id) in disk
    ensures OnDisk(log, disk) == if RecordName(id) in disk then log else Without(log, id)
  {
    if log != [] {
      assert log == Front(log) + [Last(log)];
      OnDiskBut(Front(log), disk, id);
    }
  }

  /** Every file of another record is still there. */
  lemma OtherRecordsStay(s: Settings, st: Store, op: Op, d: Disk, id: Id)
    requires d in CrashPoints(s, st, op) && RecordName(id) in st.disk && (op.Retire? ==> op.id != id)
    ensures RecordName(id) in d
  {
    if op.Retire? {
      RetirementLeaves(st, op, d, id);
    } else {
      hide Writes;
    }
  }

  lemma RetirementLeaves(st: Store, op: Op, d: Disk, id: Id)
    requires op.Retire? && op.id != id && RecordName(id) in st.disk
    requires d in RetirePoints(st, op) || d == st.disk || d == Retiring(st, op).disk
    ensures RecordName(id) in d
  {
    FindsQueued(st.content.log, op.id);
    hide Find;
  }

  /** The operation removed a record's file without confirmation and could not
      write it back. */
  predicate LosesRecord(s: Settings, st: Store, op: Op) {
    && op.Retire? && Find(st.content.log, op.id).Some? && RecordName(op.id) in st.disk
    && (op.id in st.content.holds ==> op.holdRemoved == Gone)
    && (op.id in st.content.backoffs ==> op.backoffRemoved == Gone)
    && op.removed == NotSynced && op.restored.Failed?
  }

  lemma LosesExactly(s: Settings, st: Store, op: Op)
    requires Sound(s, st) && Whole(st) && op.Retire?
    ensures Find(Step(s, st, op).content.log, op.id).Some? && RecordName(op.id) !in Step(s, st, op).disk <==>
            LosesRecord(s, st, op)
  {
    hide Sound, Whole, Find;
    var log := st.content.log;
    FindsQueued(log, op.id);
    FindsQueued(Without(log, op.id), op.id);
    assert Find(Without(log, op.id), op.id).None? by {
      if Find(Without(log, op.id), op.id).Some? { WithoutHas(log, op.id, Find(Without(log, op.id), op.id).value); }
    }
    if Find(log, op.id).Some? { WholeFinds(st, op.id); }
  }

  lemma WholeFinds(st: Store, id: Id)
    requires Whole(st) && Find(st.content.log, id).Some?
    ensures RecordName(id) in st.disk
  {
    FindsQueued(st.content.log, id);
  }

  /** Every record keeps its file through every operation, exactly unless a
      retirement's restore fails. */
  lemma WholeUnlessLost(s: Settings, st: Store, op: Op)
    requires Sound(s, st) && Whole(st)
    ensures Whole(Step(s, st, op)) <==> !LosesRecord(s, st, op)
  {
    var st' := Step(s, st, op);
    if op.Retire? {
      LosesExactly(s, st, op);
      FindsQueued(st'.content.log, op.id);
    }
    LogAfter(s, st, op);
    hide Sound, Step, Find, LosesRecord, CrashPoints;
    forall r | r in st'.content.log && (op.Retire? ==> r.id != op.id) ensures RecordName(r.id) in st'.disk {
      if r in st.content.log { OtherRecordsStay(s, st, op, st'.disk, r.id); }
    }
    if op.Retire? && LosesRecord(s, st, op) {
      var r := Find(st'.content.log, op.id).value;
      assert r in st'.content.log && RecordName(r.id) !in st'.disk;
    }
    if op.Retire? && !LosesRecord(s, st, op) {
      forall r | r in st'.content.log && r.id == op.id ensures RecordName(r.id) in st'.disk {
        QueuedIn(st'.content.log, r);
      }
    }
  }

  /** An operation's records are the old ones, less the one retired, and the one
      inserted, whose file it wrote. */
  lemma LogAfter(s: Settings, st: Store, op: Op)
    ensures var st' := Step(s, st, op);
            && st'.disk in CrashPoints(s, st, op)
            && (forall r | r in st'.content.log && r !in st.content.log :: op.Insert? && RecordName(r.id) in st'.disk)
            && (forall r | r in st.content.log && r !in st'.content.log :: op.Retire? && r.id == op.id)
            && (st'.content.log != st.content.log ==>
                  || (op.Insert? && exists r :: st'.content.log == st.content.log + [r])
                  || (op.Retire? && st'.content.log == Without(st.content.log, op.id)))
  {
    hide Without, Writes;
    if op.Retire? { FindsQueued(st.content.log, op.id); }
    forall r ensures op.Retire? ==> (r in Without(st.content.log, op.id) <==> r in st.content.log && r.id != op.id) {
      if op.Retire? { WithoutHas(st.content.log, op.id, r); }
    }
    hide Find;
  }

  /** What a crash point loads: the records of before, or those of after, or of a
      retirement under way those without the one being retired; and only holds and
      back-offs that memory had before or after. */
  lemma CrashPointContent(s: Settings, st: Store, op: Op, d: Disk, c: Content)
    requires Sound(s, st) && Whole(st) && d in CrashPoints(s, st, op) && Loads(s, d, c)
    ensures c.log in {st.content.log, Step(s, st, op).content.log}
            || (op.Retire? && c.log == Without(st.content.log, op.id))
    ensures c == Stored(d, st.content) || c == Stored(d, Step(s, st, op).content)
  {
    var st' := Step(s, st, op);
    StepKeeps(s, st, op);
    CrashPointsMirror(s, st, op, d);
    CrashPointStored(s, st, op, d, c);
    LogAfter(s, st, op);
    forall r | r in st.content.log && (op.Retire? ==> r.id != op.id) ensures RecordName(r.id) in d {
      OtherRecordsStay(s, st, op, d, r.id);
    }
    hide Sound, Step, Loads, Mirrors, CrashPoints, OnDisk;
    if op.Retire? {
      OnDiskBut(st.content.log, d, op.id);
      forall r | r in st'.content.log && r.id != op.id ensures RecordName(r.id) in d {}
      OnDiskBut(st'.content.log, d, op.id);
      WithoutTwice(st.content.log, op.id);
    } else {
      AllOnDisk(st.content.log, d);
      if c == Stored(d, st'.content) && st'.content.log != st.content.log {
        var r :| st'.content.log == st.content.log + [r];
        OneMore(st.content.log, r, d);
      }
    }
  }

  lemma OneMore(log: seq<Record>, r: Record, d: Disk)
    requires OnDisk(log, d) == log
    ensures OnDisk(log + [r], d) in {log, log + [r]}
  {
    assert Front(log + [r]) == log;
    assert log + [] == log;
  }

  lemma {:induction false} WithoutTwice(log: seq<Record>, id: Id)
    ensures Without(Without(log, id), id) == Without(log, id)
  {
    if log != [] {
      WithoutTwice(Front(log), id);
      var kept := Without(Front(log), id);
      if Last(log).id != id { assert Front(kept + [Last(log)]) == kept; } else { assert kept + [] == kept; }
    }
  }

  lemma CrashPointStored(s: Settings, st: Store, op: Op, d: Disk, c: Content)
    requires Sound(s, st) && Sound(s, Step(s, st, op)) && Loads(s, d, c)
    requires Mirrors(d, st.content) || Mirrors(d, Step(s, st, op).content)
    ensures c == Stored(d, st.content) || c == Stored(d, Step(s, st, op).content)
  {
    hide Mirrors, ContentOK, Loads, Step, Stored, Orphaned;
    assert Loadable(s, d);
    OrphanRefuses(s, d);
    if Mirrors(d, st.content) {
      MirroredLoads(s, d, st.content);
      LoadsOnce(s, d, c, Stored(d, st.content));
    } else {
      MirroredLoads(s, d, Step(s, st, op).content);
      LoadsOnce(s, d, c, Stored(d, Step(s, st, op).content));
    }
  }

  // ---------------------------------------------------------------------
  // Runs: operations, crashes and restarts
  // ---------------------------------------------------------------------

  /** An operation that ran to its end, or one a crash cut with the directory as
      `at`, after which the next process loads what is there. */
  datatype Action = Do(op: Op) | Crash(op: Op, at: Disk)

  datatype Outcome = Serving(store: Store) | RefusedToStart | NotARun

  function NextAfter(log: seq<Record>): int {
    if log == [] then 1 else Last(log).seqno + 1
  }

  ghost function Started(s: Settings, disk: Disk): Outcome {
    if Loadable(s, disk) then
      var c :| Loads(s, disk, c);
      Serving(Store(c, NextAfter(c.log), disk - {TempName}))
    else RefusedToStart
  }

  ghost function Acted(s: Settings, st: Store, a: Action): Outcome {
    match a
    case Do(op) => Serving(Step(s, st, op))
    case Crash(op, at) => if at in CrashPoints(s, st, op) then Started(s, at) else NotARun
  }

  /** The queue of a directory created empty. */
  const EMPTY_STORE: Store := Store(Content([], map[], map[]), 1, map[])

  /** A run of processes on one directory, created empty. */
  ghost function Run(s: Settings, run: seq<Action>): Outcome {
    if run == [] then Serving(EMPTY_STORE)
    else match Run(s, Front(run))
      case Serving(st) => Acted(s, st, Last(run))
      case other => other
  }

  /** No retirement of the run loses a record's file. */
  ghost predicate Careful(s: Settings, run: seq<Action>) {
    run != [] ==>
      && Careful(s, Front(run))
      && (Run(s, Front(run)).Serving? ==> !LosesRecord(s, Run(s, Front(run)).store, Last(run).op))
  }

  lemma StartedIsSound(s: Settings, disk: Disk)
    requires Loadable(s, disk)
    ensures var st := Started(s, disk).store; Sound(s, st) && Loads(s, disk, st.content) && Whole(st)
  {
    var st := Started(s, disk).store;
    assert Loads(s, disk, st.content);
    UnlinkingKeepsFiles(disk, st.content, TempName);
    forall r | r in st.content.log ensures r.seqno < st.next { LastIsGreatest(st.content.log, r); }
    if st.content.log != [] { assert Last(st.content.log) in st.content.log; }
    hide Sum;
  }

  lemma WholeIsFree(s: Settings, st: Store)
    requires Sound(s, st) && Whole(st)
    ensures !Orphaned(st.disk)
  {
    forall id | HoldName(id) in st.disk || BackoffName(id) in st.disk ensures RecordName(id) in st.disk {
      SidecarsAreKnown(s, st, id);
      assert Queued(st.content.log, id);
      FindsQueued(st.content.log, id);
      WholeFinds(st, id);
    }
  }

  lemma WholeStrandsNothing(s: Settings, st: Store, op: Op)
    requires Sound(s, st) && Whole(st)
    ensures !StrandsSidecar(s, st, op)
  {
    hide Sound, Whole, Find, ValidHold, ValidBackoff;
    if (op.SetHold? || op.SetBackoff?) && Writes(s, st, op) { WholeFinds(st, NameOf(op).id); }
  }

  lemma ActedIsSound(s: Settings, st: Store, a: Action)
    requires Sound(s, st) && Acted(s, st, a).Serving?
    ensures Sound(s, Acted(s, st, a).store)
  {
    hide Sound, Step, CrashPoints;
    if a.Do? { StepKeeps(s, st, a.op); } else { StartedIsSound(s, a.at); }
  }

  /** Every run, whatever fails: the serving store is sound, so its directory loads
      exactly while no sidecar stands without its record. */
  lemma {:induction false} RunKeeps(s: Settings, run: seq<Action>)
    requires s.maxItems >= 0 && s.maxBytes >= 0 && Run(s, run).Serving?
    ensures Sound(s, Run(s, run).store)
    ensures Loadable(s, Run(s, run).store.disk) <==> !Orphaned(Run(s, run).store.disk)
  {
    hide Sound, Acted, Orphaned, Loadable;
    if run == [] {
      assert Sound(s, Run(s, run).store) by { hide *; EmptyIsSound(s); }
    } else {
      RunKeeps(s, Front(run));
      ActedIsSound(s, Run(s, Front(run)).store, Last(run));
    }
    SoundLoads(s, Run(s, run).store);
  }

  lemma EmptyIsSound(s: Settings)
    requires s.maxItems >= 0 && s.maxBytes >= 0
    ensures Sound(s, EMPTY_STORE)
  {
  }

  lemma SoundLoads(s: Settings, st: Store)
    requires Sound(s, st)
    ensures Loadable(s, st.disk) <==> !Orphaned(st.disk)
  {
    LoadsUnlessOrphaned(s, st.disk, st.content);
  }

  /** Over every run that loses no record's file, every process starts, whatever
      the point at which the one before it was cut. */
  lemma {:induction false} CarefulRunsStart(s: Settings, run: seq<Action>)
    requires s.maxItems >= 0 && s.maxBytes >= 0 && Careful(s, run)
    ensures Run(s, run) != RefusedToStart
    ensures Run(s, run).Serving? ==> Sound(s, Run(s, run).store) && Whole(Run(s, run).store)
  {
    if Run(s, run).Serving? { RunKeeps(s, run); }
    if run != [] {
      CarefulRunsStart(s, Front(run));
      hide Sound, Whole, LosesRecord;
      if Run(s, Front(run)).Serving? { CarefulStep(s, Run(s, Front(run)).store, Last(run)); }
    }
  }

  lemma CarefulStep(s: Settings, st: Store, a: Action)
    requires Sound(s, st) && Whole(st) && !LosesRecord(s, st, a.op)
    ensures Acted(s, st, a) != RefusedToStart
    ensures Acted(s, st, a).Serving? ==> Whole(Acted(s, st, a).store)
  {
    hide Sound, Whole, LosesRecord, Step, CrashPoints, Orphaned, Loadable, StrandsSidecar;
    if a.Do? {
      WholeUnlessLost(s, st, a.op);
    } else if a.at in CrashPoints(s, st, a.op) {
      WholeIsFree(s, st);
      WholeStrandsNothing(s, st, a.op);
      CrashPointsLoad(s, st, a.op);
      StartedIsSound(s, a.at);
    }
  }

  /** Reloading rebuilds the same records in the same order, and so the same byte
      total and the same counts of every device and lane. */
  lemma ReloadRebuilds(s: Settings, st: Store)
    requires Sound(s, st) && Whole(st)
    ensures Started(s, st.disk).Serving?
    ensures var st' := Started(s, st.disk).store;
            && st'.content.log == st.content.log
            && (forall scope, bytes :: Sum(st'.content.log, scope, bytes) == Sum(st.content.log, scope, bytes))
            && st'.content == Stored(st.disk, st.content)
  {
    hide Sound, OnDisk, Orphaned, Mirrors, ContentOK;
    WholeIsFree(s, st);
    SoundLoads(s, st);
    StartedIsSound(s, st.disk);
    MirroredLoadsOf(s, st);
    LoadsOnce(s, st.disk, Started(s, st.disk).store.content, Stored(st.disk, st.content));
    AllOnDisk(st.content.log, st.disk);
  }

  lemma MirroredLoadsOf(s: Settings, st: Store)
    requires Sound(s, st) && !Orphaned(st.disk)
    ensures Loads(s, st.disk, Stored(st.disk, st.content))
  {
    hide ContentOK, Mirrors, Orphaned, Loads;
    MirroredLoads(s, st.disk, st.content);
  }

  // ---------------------------------------------------------------------
  // A queued record stays queued until its own retirement
  // ---------------------------------------------------------------------

  ghost predicate Kept(st: Store, r: Record) {
    r in st.content.log && RecordName(r.id) in st.disk
  }

  lemma FileIsItsRecord(s: Settings, d: Disk, c: Content, r: Record)
    requires ContentOK(s, c) && Mirrors(d, c) && r in c.log && RecordName(r.id) in d
    ensures d[RecordName(r.id)] == RecordFile(1, r.id, r)
  {
    assert FileMatches(RecordName(r.id), d[RecordName(r.id)], c);
    SameRecord(c.log, r, d[RecordName(r.id)].record);
  }

  lemma StaysKept(s: Settings, st: Store, a: Action, r: Record)
    requires Sound(s, st) && Kept(st, r) && !(a.op.Retire? && a.op.id == r.id) && Acted(s, st, a).Serving?
    ensures Kept(Acted(s, st, a).store, r)
  {
    var op := a.op;
    LogAfter(s, st, op);
    if a.Do? {
      OtherRecordsStay(s, st, op, Step(s, st, op).disk, r.id);
    } else {
      StepKeeps(s, st, op);
      hide Mirrors, ContentOK, Step, CrashPoints;
      OtherRecordsStay(s, st, op, a.at, r.id);
      CrashPointsMirror(s, st, op, a.at);
      if Mirrors(a.at, st.content) { FileIsItsRecord(s, a.at, st.content, r); }
      else { FileIsItsRecord(s, a.at, Step(s, st, op).content, r); }
      StartedIsSound(s, a.at);
      RecordOnDisk(s, a.at, Acted(s, st, a).store.content, r);
    }
  }

  /** A record newly queued has its file. */
  lemma NewHasFile(s: Settings, st: Store, a: Action, r: Record)
    requires Acted(s, st, a).Serving? && r in Acted(s, st, a).store.content.log && r !in st.content.log
    ensures RecordName(r.id) in Acted(s, st, a).store.disk
  {
    if a.Do? { LogAfter(s, st, a.op); } else { StartedIsSound(s, a.at); }
    hide Step, CrashPoints;
  }

  /** Through any run of operations, crashes and restarts that serves, a record
      with its file on disk stays queued, with the sequence it was given, until an
      operation retires it: no crash point loses it. */
  lemma {:induction false} RecordOutlives(s: Settings, run: seq<Action>, more: seq<Action>, r: Record)
    requires s.maxItems >= 0 && s.maxBytes >= 0
    requires Run(s, run).Serving? && Kept(Run(s, run).store, r)
    requires Run(s, run + more).Serving?
    requires forall a | a in more :: !(a.op.Retire? && a.op.id == r.id)
    ensures Kept(Run(s, run + more).store, r)
  {
    hide Acted, Kept;
    if more == [] {
      assert run + more == run;
    } else {
      assert Front(run + more) == run + Front(more) && Last(run + more) == Last(more);
      assert more == Front(more) + [Last(more)];
      RecordOutlives(s, run, Front(more), r);
      RunKeeps(s, run + Front(more));
      hide Run, Sound;
      StaysKept(s, Run(s, run + Front(more)).store, Last(more), r);
    }
  }

  // ---------------------------------------------------------------------
  // Where the directory stops loading
  // ---------------------------------------------------------------------

  /** A store that holds the record of `id` in memory and nothing on disk. */
  function LostStore(id: Id, now: int): Store {
    Store(Content([Record(id, 1, now)], map[], map[]), 2, map[])
  }

  /** A first insert, and a retirement that is unlinked but neither confirmed nor
      restored. */
  function LosingRun(id: Id, now: int): seq<Action> {
    [Do(Insert(id, now, Committed)), Do(Retire(id, Gone, Gone, NotSynced, Failed(false)))]
  }

  lemma RunsOneMore(s: Settings, run: seq<Action>, op: Op)
    requires Run(s, run).Serving?
    ensures Run(s, run + [Do(op)]) == Serving(Step(s, Run(s, run).store, op))
  {
    assert Front(run + [Do(op)]) == run;
  }

  /** Such a retirement leaves the record queued without its file. */
  lemma LostRecordStays(s: Settings, id: Id, now: int)
    requires id.payload.size > 0 && Admission(s, [], Record(id, 1, now)) == Admitted
    ensures Run(s, LosingRun(id, now)) == Serving(LostStore(id, now))
  {
    var r := Record(id, 1, now);
    var insert, retire := Do(Insert(id, now, Committed)), Do(Retire(id, Gone, Gone, NotSynced, Failed(false)));
    hide Admission;
    var st1 := Store(Content([r], map[], map[]), 2, map[RecordName(id) := RecordFile(1, id, r)]);
    assert Run(s, [insert]) == Serving(st1) by {
      assert Front([insert]) == [];
      assert [] + [r] == [r];
    }
    assert Find([r], id) == Some(r);
    assert Front([insert, retire]) == [insert];
    assert st1.disk - {RecordName(id)} == map[];
  }

  /** A run that refuses its next start: after such a loss, the back-off that follows
      is written beside a record that is no longer there. */
  lemma LostRecordRefusesStart(s: Settings, id: Id, now: int, b: Backoff)
    requires id.payload.size > 0 && Admission(s, [], Record(id, 1, now)) == Admitted
    requires b.record == id && ValidBackoff(Versioned(b))
    ensures var run := LosingRun(id, now) + [Do(SetBackoff(b, Committed))];
            && Run(s, run).Serving? && Started(s, Run(s, run).store.disk) == RefusedToStart
  {
    hide Admission, ValidBackoff, Run, LosingRun;
    LostRecordStays(s, id, now);
    RunsOneMore(s, LosingRun(id, now), SetBackoff(b, Committed));
    assert Find([Record(id, 1, now)], id) == Some(Record(id, 1, now));
    var disk := Step(s, LostStore(id, now), SetBackoff(b, Committed)).disk;
    assert BackoffName(id) in disk && RecordName(id) !in disk;
    if Loadable(s, disk) { OrphanRefuses(s, disk); }
  }

  /** Two records of one sequence refuse the load. */
  lemma SequenceTwiceRefuses(s: Settings, disk: Disk, r: Record, r': Record)
    requires Loadable(s, disk) && r.id != r'.id
    requires RecordName(r.id) in disk && disk[RecordName(r.id)] == RecordFile(1, r.id, r)
    requires RecordName(r'.id) in disk && disk[RecordName(r'.id)] == RecordFile(1, r'.id, r')
    ensures r.seqno != r'.seqno
  {
    var c :| Loads(s, disk, c);
    RecordOnDisk(s, disk, c, r);
    RecordOnDisk(s, disk, c, r');
    if r.seqno == r'.seqno { SameRecord(c.log, r, r'); }
  }

  /** Why a failed write must commit nothing: if the rename of an insert lands and
      the sync after it fails, the sequence is not advanced, and the next insert's
      record shares it; the directory then refuses to load. */
  lemma UnconfirmedCommitRefuses(s: Settings, st: Store, id: Id, now: int, id': Id, now': int)
    requires Sound(s, st) && Inserts(s, st, id, now) && id != id'
    requires Inserts(s, st, id', now')
    ensures var unconfirmed := st.(disk := st.disk[RecordName(id) := RecordFile(1, id, Record(id, st.next, now))]);
            !Loadable(s, Step(s, unconfirmed, Insert(id', now', Committed)).disk)
  {
    var unconfirmed := st.(disk := st.disk[RecordName(id) := RecordFile(1, id, Record(id, st.next, now))]);
    var disk := Step(s, unconfirmed, Insert(id', now', Committed)).disk;
    hide Admission, Loadable, Find;
    if Loadable(s, disk) { SequenceTwiceRefuses(s, disk, Record(id, st.next, now), Record(id', st.next, now')); }
  }

  /** The files a retirement that meets no failure removes. */
  function RetiredNames(st: Store, id: Id): set<Name> {
    {RecordName(id)} + (if id in st.content.holds then {HoldName(id)} else {})
    + (if id in st.content.backoffs then {BackoffName(id)} else {})
  }

  /** Without a failure, and with its file there, a record leaves with its sidecars
      and nothing else does. */
  lemma RetiresCleanly(s: Settings, st: Store, id: Id, restored: Wrote)
    requires Find(st.content.log, id).Some? && RecordName(id) in st.disk
    ensures var st' := Step(s, st, Retire(id, Gone, Gone, Gone, restored));
            && st'.disk == st.disk - RetiredNames(st, id) && st'.next == st.next
            && st'.content == Content(Without(st.content.log, id), st.content.holds - {id}, st.content.backoffs - {id})
            && Find(st'.content.log, id).None?
  {
    FindsQueued(st.content.log, id);
    FindsQueued(Without(st.content.log, id), id);
    if Find(Without(st.content.log, id), id).Some? {
      WithoutHas(st.content.log, id, Find(Without(st.content.log, id), id).value);
    }
    hide Find, Without;
    var (st1, on1) := DropHold(st, id, Gone);
    var (st2, on2) := DropBackoff(st1, id, Gone);
    assert st2.disk - {RecordName(id)} == st.disk - RetiredNames(st, id);
    assert id !in st.content.holds ==> st.content.holds - {id} == st.content.holds;
    assert id !in st.content.backoffs ==> st.content.backoffs - {id} == st.content.backoffs;
  }

  /** A retirement whose record file is missing, or is not unlinked for certain, forgets
      nothing: the record stays, its file as it was, or there exactly when restored. */
  lemma RetirementKeepsRecord(s: Settings, st: Store, id: Id, removed: Removed, restored: Wrote)
    requires Find(st.content.log, id).Some? && (removed != Gone || RecordName(id) !in st.disk)
    ensures var st' := Step(s, st, Retire(id, Gone, Gone, removed, restored));
            && st'.content.log == st.content.log && st'.next == st.next
            && (RecordName(id) in st'.disk <==>
                  RecordName(id) in st.disk && (removed == NotSynced ==> restored.Committed?))
  {
    FindsQueued(st.content.log, id);
    var st2 := DropBackoff(DropHold(st, id, Gone).0, id, Gone).0;
    RecordDropFails(st2, Find(st.content.log, id).value, removed, restored);
    assert st2.content.log == st.content.log && st2.next == st.next
           && (RecordName(id) in st2.disk <==> RecordName(id) in st.disk);
    hide Find, Without, DropRecord;
  }

  lemma RecordDropFails(st: Store, record: Record, removed: Removed, restored: Wrote)
    requires removed != Gone || RecordName(record.id) !in st.disk
    ensures var st' := DropRecord(st, record, removed, restored);
            && st'.content == st.content && st'.next == st.next
            && (RecordName(record.id) in st'.disk <==>
                  RecordName(record.id) in st.disk && (removed == NotSynced ==> restored.Committed?))
  {
  }

  /** Where a crash can cut an operation: before and after it; with a temporary file
      staged, for every write the queue accepts; and between the removals of a
      retirement, which takes the hold, then the back-off, then the record. */
  lemma CrashCuts(s: Settings, st: Store, op: Op)
    ensures st.disk in CrashPoints(s, st, op) && Step(s, st, op).disk in CrashPoints(s, st, op)
    ensures Writes(s, st, op) ==> st.disk[TempName := Partial] in CrashPoints(s, st, op)
    ensures op.Retire? && Find(st.content.log, op.id).Some? && op.holdRemoved == op.backoffRemoved == Gone
            && op.removed != NotUnlinked ==>
              var d1 := if op.id in st.content.holds then st.disk - {HoldName(op.id)} else st.disk;
              var d2 := if op.id in st.content.backoffs then d1 - {BackoffName(op.id)} else d1;
              var d3 := d2 - {RecordName(op.id)};
              {d1, d2, d3, d3[TempName := Partial]} <= CrashPoints(s, st, op)
  {
    hide Step, Find, Inserts, ValidHold, ValidBackoff;
  }

  /** A write that commits takes effect in memory and on disk together, and exactly
      where the queue accepts it; one that fails, or is not accepted, leaves memory
      and every committed file as they were. */
  lemma WritesTakeEffect(s: Settings, st: Store, op: Op)
    requires op.Insert? || op.SetHold? || op.SetBackoff?
    ensures var st' := Step(s, st, op);
            var accepted := match op
                            case Insert(id, now, _) =>
                              && id.payload.size > 0 && Find(st.content.log, id).None?
                              && Admission(s, st.content.log, Record(id, st.next, now)) == Admitted
                            case SetHold(h, _) =>
                              Find(st.content.log, h.record).Some? && ValidHold(h.(v := 1), h.record)
                            case SetBackoff(b, _) =>
                              && Find(st.content.log, b.record).Some?
                              && ValidBackoff(b.(v := if b.retryAfter.Some? then 2 else 1));
            if !accepted || op.wrote.Failed? then
              st'.content == st.content && st'.next == st.next && st'.disk - {TempName} == st.disk - {TempName}
            else match op
              case Insert(id, now, _) =>
                var r := Record(id, st.next, now);
                && st'.content == st.content.(log := st.content.log + [r]) && st'.next == st.next + 1
                && st'.disk == st.disk[RecordName(id) := RecordFile(1, id, r)]
              case SetHold(h, _) =>
                && st'.content == st.content.(holds := st.content.holds[h.record := h.(v := 1)]) && st'.next == st.next
                && st'.disk == st.disk[HoldName(h.record) := HoldFile(h.(v := 1))]
              case SetBackoff(b, _) =>
                var b' := b.(v := if b.retryAfter.Some? then 2 else 1);
                && st'.content == st.content.(backoffs := st.content.backoffs[b.record := b']) && st'.next == st.next
                && st'.disk == st.disk[BackoffName(b.record) := BackoffFile(b')]
  {
    hide Find, Admission, ValidHold, ValidBackoff;
  }

  /** Clearing a back-off removes it from memory exactly when its removal is confirmed,
      and touches nothing else. */
  lemma ClearTakesEffect(s: Settings, st: Store, id: Id, removed: Removed)
    ensures var st' := Step(s, st, ClearBackoff(id, removed));
            && st'.content.log == st.content.log && st'.content.holds == st.content.holds && st'.next == st.next
            && st'.content.backoffs == (if removed == Gone then st.content.backoffs - {id} else st.content.backoffs)
            && st'.disk == (if id in st.content.backoffs && removed != NotUnlinked then st.disk - {BackoffName(id)}
                            else st.disk)
  {
    assert id !in st.content.backoffs ==> st.content.backoffs - {id} == st.content.backoffs;
  }

  /** Nor may a sidecar's: if the rename of a hold or a back-off lands and the sync
      after it fails, memory does not know it. A later retirement of the record then
      leaves it behind, and the directory refuses to load; unless memory had one
      already, which the retirement removes as it would have. */
  lemma UnconfirmedSidecarRefuses(s: Settings, st: Store, op: Op, restored: Wrote)
    requires Writes(s, st, op) && (op.SetHold? || op.SetBackoff?)
    requires RecordName(NameOf(op).id) in st.disk
    ensures var id := NameOf(op).id;
            var retire := Retire(id, Gone, Gone, Gone, restored);
            var unconfirmed := st.(disk := st.disk[NameOf(op) := FileOf(st, op)]);
            if id in (if op.SetHold? then st.content.holds.Keys else st.content.backoffs.Keys)
            then Step(s, unconfirmed, retire).disk == Step(s, st, retire).disk
            else !Loadable(s, Step(s, unconfirmed, retire).disk)
  {
    var id := NameOf(op).id;
    var retire := Retire(id, Gone, Gone, Gone, restored);
    var unconfirmed := st.(disk := st.disk[NameOf(op) := FileOf(st, op)]);
    var disk := Step(s, unconfirmed, retire).disk;
    RetiresCleanly(s, st, id, restored);
    RetiresCleanly(s, unconfirmed, id, restored);
    hide Step, Loadable, Find, ValidHold, ValidBackoff;
    if id in (if op.SetHold? then st.content.holds.Keys else st.content.backoffs.Keys) {
      assert unconfirmed.disk - RetiredNames(st, id) == st.disk - RetiredNames(st, id);
    } else {
      assert NameOf(op) in disk && RecordName(id) !in disk;
      if Loadable(s, disk) { OrphanRefuses(s, disk); }
    }
  }
}
