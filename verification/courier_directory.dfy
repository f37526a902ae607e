/** The durable queue's directory: what it holds, when it loads, and what loading
    it rebuilds (internal/evidence/courier/queue.go, load, and hold.go). */
module CourierDirectory {
  import opened Base
  import opened CourierQueue
  import opened CourierCapacity
  import opened Refusal

  const MAX_BACKOFF_ATTEMPTS: int := 0x1_0000
  const MAX_RETRY_AFTER_MS: int := 0x7fff_ffff * 1000

  /** When a backed-off record may next be sent. */
  datatype Backoff = Backoff(v: int, record: Id, notBefore: int, attempts: int, retryAfter: Option<int>)

  predicate ValidBackoff(b: Backoff) {
    && b.v == (if b.retryAfter.Some? then 2 else 1)
    && 0 < b.notBefore <= MAX_SAFE_INTEGER
    && 1 <= b.attempts <= MAX_BACKOFF_ATTEMPTS
    && (b.retryAfter.Some? ==> 1 <= b.retryAfter.value <= MAX_RETRY_AFTER_MS)
  }

  /** An entry's name: a record, a sidecar, a temporary file, or anything else. */
  datatype Name = RecordName(id: Id) | HoldName(id: Id) | BackoffName(id: Id) | TempName | OtherName(text: string)

  /** A file's decoded content; `claimed` is the identifier a record file states.
      `Partial` is a file a load cannot use: one cut short, one that does not
      decode, or one that is not a private regular file. */
  datatype File =
    | RecordFile(v: int, claimed: Id, record: Record)
    | HoldFile(hold: HoldRecord<Id>)
    | BackoffFile(backoff: Backoff)
    | Partial

  type Disk = map<Name, File>

  /** What a queue holds: its records in order, and the holds and back-offs beside
      them. The queue's byte total and counts are the sums of `log`. */
  datatype Content = Content(log: seq<Record>, holds: map<Id, HoldRecord<Id>>, backoffs: map<Id, Backoff>)

  predicate RecordOK(r: Record) {
    r.seqno > 0 && r.at > 0 && r.id.payload.size > 0
  }

  predicate Ordered(log: seq<Record>) {
    forall i, j | 0 <= i < j < |log| :: log[i].seqno < log[j].seqno && log[i].id != log[j].id
  }

  predicate Queued(log: seq<Record>, id: Id) {
    exists i | 0 <= i < |log| :: log[i].id == id
  }

  /** A record in the order a queue keeps, with sidecars only for what it holds. */
  ghost predicate ContentOK(s: Settings, c: Content) {
    && Ordered(c.log)
    && (forall r | r in c.log :: RecordOK(r))
    && |c.log| <= s.maxItems && Sum(c.log, Everyone, true) <= s.maxBytes
    && (forall id | id in c.holds :: Queued(c.log, id) && ValidHold(c.holds[id], id))
    && (forall id | id in c.backoffs ::
          Queued(c.log, id) && ValidBackoff(c.backoffs[id]) && c.backoffs[id].record == id)
  }

  ghost predicate FileMatches(name: Name, file: File, c: Content) {
    match name
    case RecordName(id) => file.RecordFile? && file.v == 1 && file.claimed == id == file.record.id
        && file.record in c.log
    case HoldName(id) => file.HoldFile? && id in c.holds && file.hold == c.holds[id]
    case BackoffName(id) => file.BackoffFile? && id in c.backoffs && file.backoff == c.backoffs[id]
    case TempName => true
    case OtherName(_) => false
  }

  /** Every file is one the content accounts for; files may be missing. */
  ghost predicate Mirrors(disk: Disk, c: Content) {
    forall name | name in disk :: FileMatches(name, disk[name], c)
  }

  ghost predicate Complete(disk: Disk, c: Content) {
    && (forall r | r in c.log :: RecordName(r.id) in disk)
    && (forall id | id in c.holds :: HoldName(id) in disk)
    && (forall id | id in c.backoffs :: BackoffName(id) in disk)
  }

  /** The directory loads, as `c`. */
  ghost predicate Loads(s: Settings, disk: Disk, c: Content) {
    ContentOK(s, c) && Mirrors(disk, c) && Complete(disk, c)
  }

  ghost predicate Loadable(s: Settings, disk: Disk) {
    exists c :: Loads(s, disk, c)
  }

  /** An unexpected entry refuses the load. */
  lemma OtherRefuses(s: Settings, disk: Disk, name: Name)
    requires name in disk && name.OtherName?
    ensures !Loadable(s, disk)
  {
    assert forall c :: !FileMatches(name, disk[name], c);
  }

  // ---------------------------------------------------------------------
  // A directory loads as one content
  // ---------------------------------------------------------------------

  lemma SameRecord(log: seq<Record>, r: Record, r': Record)
    requires Ordered(log) && r in log && r' in log && (r.id == r'.id || r.seqno == r'.seqno)
    ensures r == r'
  {
    var i :| 0 <= i < |log| && log[i] == r;
    var j :| 0 <= j < |log| && log[j] == r';
    assert i == j;
  }

  lemma {:induction false} SortedOnce(log: seq<Record>, log': seq<Record>)
    requires Ordered(log) && Ordered(log') && (forall r :: r in log <==> r in log')
    ensures log == log'
  {
    EmptyTogether(log, log');
    if log != [] {
      assert Last(log) in log && Last(log') in log';
      LastIsGreatest(log, Last(log'));
      LastIsGreatest(log', Last(log));
      SameRecord(log, Last(log), Last(log'));
      forall r ensures r in Front(log) <==> r in Front(log') {
        InFront(log, r);
        InFront(log', r);
      }
      SortedOnce(Front(log), Front(log'));
    }
  }

  lemma LastIsGreatest(log: seq<Record>, r: Record)
    requires Ordered(log) && r in log
    ensures r.seqno <= Last(log).seqno
  {
  }

  lemma InFront(log: seq<Record>, r: Record)
    requires Ordered(log) && log != []
    ensures r in Front(log) <==> r in log && r != Last(log)
  {
    if r in log && r != Last(log) {
      var i :| 0 <= i < |log| && log[i] == r;
      assert Front(log)[i] == r;
    }
  }

  lemma RecordOnDisk(s: Settings, disk: Disk, c: Content, r: Record)
    requires Loads(s, disk, c)
    ensures r in c.log <==> RecordName(r.id) in disk && disk[RecordName(r.id)] == RecordFile(1, r.id, r)
  {
    if r in c.log {
      var file := disk[RecordName(r.id)];
      assert FileMatches(RecordName(r.id), file, c);
      SameRecord(c.log, r, file.record);
    }
    if RecordName(r.id) in disk && disk[RecordName(r.id)] == RecordFile(1, r.id, r) {
      assert FileMatches(RecordName(r.id), disk[RecordName(r.id)], c);
    }
  }

  /** Loading decides the content: the records, their order, and so every byte
      total and per-lane and per-device count, and the holds and back-offs. */
  lemma LoadsOnce(s: Settings, disk: Disk, c: Content, c': Content)
    requires Loads(s, disk, c) && Loads(s, disk, c')
    ensures c == c'
  {
    forall r ensures r in c.log <==> r in c'.log {
      RecordOnDisk(s, disk, c, r);
      RecordOnDisk(s, disk, c', r);
    }
    SortedOnce(c.log, c'.log);
    SidecarsOnce(disk, c, c');
  }

  lemma SidecarsOnce(disk: Disk, c: Content, c': Content)
    requires Mirrors(disk, c) && Complete(disk, c) && Mirrors(disk, c') && Complete(disk, c')
    ensures c.holds == c'.holds && c.backoffs == c'.backoffs
  {
    forall id ensures id in c.holds <==> id in c'.holds
      ensures id in c.holds ==> c.holds[id] == c'.holds[id]
    {
      if HoldName(id) in disk {
        assert FileMatches(HoldName(id), disk[HoldName(id)], c);
        assert FileMatches(HoldName(id), disk[HoldName(id)], c');
      }
    }
    forall id ensures id in c.backoffs <==> id in c'.backoffs
      ensures id in c.backoffs ==> c.backoffs[id] == c'.backoffs[id]
    {
      if BackoffName(id) in disk {
        assert FileMatches(BackoffName(id), disk[BackoffName(id)], c);
        assert FileMatches(BackoffName(id), disk[BackoffName(id)], c');
      }
    }
  }

  // ---------------------------------------------------------------------
  // When a directory a queue wrote loads
  // ---------------------------------------------------------------------

  /** A hold or back-off file stands without its record's file. */
  ghost predicate Orphaned(disk: Disk) {
    exists id :: (HoldName(id) in disk || BackoffName(id) in disk) && RecordName(id) !in disk
  }

  /** The records of `log` whose files are present. */
  ghost function OnDisk(log: seq<Record>, disk: Disk): seq<Record> {
    if log == [] then []
    else OnDisk(Front(log), disk) + if RecordName(Last(log).id) in disk then [Last(log)] else []
  }

  lemma {:induction false} OnDiskHas(log: seq<Record>, disk: Disk, r: Record)
    ensures r in OnDisk(log, disk) <==> r in log && RecordName(r.id) in disk
  {
    if log != [] {
      OnDiskHas(Front(log), disk, r);
      assert log == Front(log) + [Last(log)];
    }
  }

  lemma {:induction false} OnDiskSums(log: seq<Record>, disk: Disk)
    ensures |OnDisk(log, disk)| <= |log|
    ensures Sum(OnDisk(log, disk), Everyone, true) <= Sum(log, Everyone, true)
  {
    hide Size;
    if log != [] {
      OnDiskSums(Front(log), disk);
      SumAppend(OnDisk(Front(log), disk), Last(log), Everyone, true);
      assert OnDisk(Front(log), disk) + [] == OnDisk(Front(log), disk);
    }
  }

  lemma {:induction false} OnDiskOrdered(log: seq<Record>, disk: Disk)
    requires Ordered(log)
    ensures Ordered(OnDisk(log, disk))
  {
    if log != [] {
      var kept := OnDisk(Front(log), disk);
      OnDiskOrdered(Front(log), disk);
      forall i | 0 <= i < |kept| ensures kept[i].seqno < Last(log).seqno && kept[i].id != Last(log).id {
        OnDiskHas(Front(log), disk, kept[i]);
      }
    }
  }

  lemma {:induction false} AllOnDisk(log: seq<Record>, disk: Disk)
    requires forall r | r in log :: RecordName(r.id) in disk
    ensures OnDisk(log, disk) == log
  {
    if log != [] {
      assert log == Front(log) + [Last(log)];
      AllOnDisk(Front(log), disk);
    }
  }

  /** What of `c` is on disk. */
  ghost function Stored(disk: Disk, c: Content): Content {
    Content(OnDisk(c.log, disk),
            map id | id in c.holds && HoldName(id) in disk :: c.holds[id],
            map id | id in c.backoffs && BackoffName(id) in disk :: c.backoffs[id])
  }

  lemma QueuedIn(log: seq<Record>, r: Record)
    requires r in log
    ensures Queued(log, r.id)
  {
  }

  lemma StoredSidecars(s: Settings, disk: Disk, c: Content, id: Id)
    requires ContentOK(s, c) && Mirrors(disk, c) && RecordName(id) in disk
    ensures Queued(OnDisk(c.log, disk), id)
  {
    var r := disk[RecordName(id)].record;
    assert FileMatches(RecordName(id), disk[RecordName(id)], c);
    OnDiskHas(c.log, disk, r);
    QueuedIn(OnDisk(c.log, disk), r);
  }

  lemma StoredIsOK(s: Settings, disk: Disk, c: Content)
    requires ContentOK(s, c) && Mirrors(disk, c) && !Orphaned(disk)
    ensures ContentOK(s, Stored(disk, c))
  {
    hide OnDisk;
    OnDiskOrdered(c.log, disk);
    OnDiskSums(c.log, disk);
    forall r | r in OnDisk(c.log, disk) ensures RecordOK(r) { OnDiskHas(c.log, disk, r); }
    forall id | id in Stored(disk, c).holds || id in Stored(disk, c).backoffs ensures Queued(OnDisk(c.log, disk), id) {
      StoredSidecars(s, disk, c, id);
    }
  }

  lemma LoadsStored(s: Settings, disk: Disk, c: Content)
    requires ContentOK(s, c) && Mirrors(disk, c) && !Orphaned(disk)
    ensures Loads(s, disk, Stored(disk, c))
  {
    StoredIsOK(s, disk, c);
    hide OnDisk, ContentOK, Orphaned;
    forall name | name in disk ensures FileMatches(name, disk[name], Stored(disk, c)) {
      assert FileMatches(name, disk[name], c);
      if name.RecordName? { OnDiskHas(c.log, disk, disk[name].record); }
    }
    forall r | r in Stored(disk, c).log ensures RecordName(r.id) in disk { OnDiskHas(c.log, disk, r); }
  }

  /** A directory whose files all match a queue's content loads exactly when no
      hold or back-off outlives its record; what it loads is what is on disk. */
  lemma LoadsUnlessOrphaned(s: Settings, disk: Disk, c: Content)
    requires ContentOK(s, c) && Mirrors(disk, c)
    ensures Loadable(s, disk) <==> !Orphaned(disk)
    ensures !Orphaned(disk) ==> Loads(s, disk, Stored(disk, c))
  {
    hide Loads, Orphaned, Mirrors, ContentOK, Stored;
    if !Orphaned(disk) { LoadsStored(s, disk, c); }
    if Loadable(s, disk) { OrphanRefuses(s, disk); }
  }

  lemma OrphanRefuses(s: Settings, disk: Disk)
    requires Loadable(s, disk)
    ensures !Orphaned(disk)
  {
    var c :| Loads(s, disk, c);
    forall id | HoldName(id) in disk || BackoffName(id) in disk ensures RecordName(id) in disk {
      if HoldName(id) in disk { assert FileMatches(HoldName(id), disk[HoldName(id)], c); }
      if BackoffName(id) in disk { assert FileMatches(BackoffName(id), disk[BackoffName(id)], c); }
      assert Queued(c.log, id);
      var i :| 0 <= i < |c.log| && c.log[i].id == id;
      assert c.log[i] in c.log;
    }
  }
}
