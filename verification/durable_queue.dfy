/** The durable queue object: its maps, order and totals, updated in place
    (internal/evidence/courier/queue.go and hold.go). */
module DurableQueues {
  import opened Base
  import opened CourierQueue
  import opened CourierCapacity
  import opened CourierDirectory
  import opened CourierStore
  import opened Refusal

  function Get<K>(m: map<K, int>, k: K): int {
    if k in m then m[k] else 0
  }

  /** The records named by `order`, in that order. */
  function LogOf(order: seq<Id>, entries: map<Id, Record>): seq<Record>
    requires forall id | id in order :: id in entries
  {
    if order == [] then []
    else
      assert Last(order) in order;
      LogOf(Front(order), entries) + [entries[Last(order)]]
  }

  lemma {:induction false} LogAt(order: seq<Id>, entries: map<Id, Record>)
    requires forall id | id in order :: id in entries
    ensures |LogOf(order, entries)| == |order|
    ensures forall i | 0 <= i < |order| :: LogOf(order, entries)[i] == entries[order[i]]
  {
    if order != [] { LogAt(Front(order), entries); }
  }

  lemma LogSame(order: seq<Id>, entries: map<Id, Record>, entries': map<Id, Record>)
    requires forall id | id in order :: id in entries && id in entries' && entries[id] == entries'[id]
    ensures LogOf(order, entries) == LogOf(order, entries')
  {
    LogAt(order, entries);
    LogAt(order, entries');
  }

  // ---------------------------------------------------------------------
  // Counts per lane and per device
  // ---------------------------------------------------------------------

  /** A map of counts and one of bytes, with a key for exactly the scopes that have
      records. */
  ghost predicate Tallies(log: seq<Record>, scope: Scope, items: Option<int>, bytes: Option<int>) {
    && (items.Some? <==> Sum(log, scope, false) > 0)
    && (bytes.Some? <==> items.Some?)
    && (items.Some? ==> items.value == Sum(log, scope, false) && bytes.value == Sum(log, scope, true))
  }

  function At<K>(m: map<K, int>, k: K): Option<int> {
    if k in m then Some(m[k]) else None
  }

  ghost predicate LaneTallies(log: seq<Record>, items: map<LaneKey, int>, bytes: map<LaneKey, int>) {
    forall k :: Tallies(log, OfLane(k), At(items, k), At(bytes, k))
  }

  ghost predicate DeviceTallies(log: seq<Record>, items: map<string, int>, bytes: map<string, int>) {
    forall d :: Tallies(log, OfDevice(d), At(items, d), At(bytes, d))
  }

  function Bumped<K>(m: map<K, int>, k: K, n: int): map<K, int> {
    m[k := Get(m, k) + n]
  }

  lemma LanesBumped(log: seq<Record>, r: Record, items: map<LaneKey, int>, bytes: map<LaneKey, int>)
    requires LaneTallies(log, items, bytes)
    ensures LaneTallies(log + [r], Bumped(items, KeyOf(r.id), 1), Bumped(bytes, KeyOf(r.id), Size(r)))
  {
    hide Sum, Size;
    var items', bytes' := Bumped(items, KeyOf(r.id), 1), Bumped(bytes, KeyOf(r.id), Size(r));
    forall k ensures Tallies(log + [r], OfLane(k), At(items', k), At(bytes', k)) {
      assert Tallies(log, OfLane(k), At(items, k), At(bytes, k));
      SumAppend(log, r, OfLane(k), false);
      SumAppend(log, r, OfLane(k), true);
      NoItemsNoBytes(log, OfLane(k));
    }
  }

  lemma DevicesBumped(log: seq<Record>, r: Record, items: map<string, int>, bytes: map<string, int>)
    requires DeviceTallies(log, items, bytes)
    ensures DeviceTallies(log + [r], Bumped(items, r.id.payload.device, 1), Bumped(bytes, r.id.payload.device, Size(r)))
  {
    var d := r.id.payload.device;
    hide Sum, Size;
    forall k ensures Tallies(log + [r], OfDevice(k), At(Bumped(items, d, 1), k), At(Bumped(bytes, d, Size(r)), k)) {
      assert Tallies(log, OfDevice(k), At(items, k), At(bytes, k));
      SumAppend(log, r, OfDevice(k), false);
      SumAppend(log, r, OfDevice(k), true);
      NoItemsNoBytes(log, OfDevice(k));
    }
  }

  /** A count taken down, and both entries deleted once nothing is left. */
  function Lowered<K>(items: map<K, int>, m: map<K, int>, k: K, n: int): map<K, int> {
    if Get(items, k) - 1 <= 0 then m - {k} else m[k := Get(m, k) - n]
  }

  lemma {:induction false} SumWithout(log: seq<Record>, r: Record, scope: Scope, bytes: bool)
    requires Ordered(log) && r in log
    ensures Sum(log, scope, bytes) == Sum(Without(log, r.id), scope, bytes) + Weight(scope, bytes, r)
  {
    var front := Front(log);
    hide Weight;
    assert log == front + [Last(log)];
    if Last(log) == r {
      NothingWithout(front, r.id);
      assert Without(log, r.id) == front;
    } else {
      SumWithout(front, r, scope, bytes);
      SumAppend(Without(front, r.id), Last(log), scope, bytes);
    }
  }

  lemma {:induction false} NothingWithout(log: seq<Record>, id: Id)
    requires forall r | r in log :: r.id != id
    ensures Without(log, id) == log
  {
    if log != [] {
      assert log == Front(log) + [Last(log)];
      NothingWithout(Front(log), id);
    }
  }

  lemma LanesLowered(log: seq<Record>, r: Record, items: map<LaneKey, int>, bytes: map<LaneKey, int>)
    requires Ordered(log) && r in log && LaneTallies(log, items, bytes)
    ensures var k := KeyOf(r.id);
            LaneTallies(Without(log, r.id), Lowered(items, items, k, 1), Lowered(items, bytes, k, Size(r)))
  {
    var key, log' := KeyOf(r.id), Without(log, r.id);
    hide Sum, Size, Without;
    var items', bytes' := Lowered(items, items, key, 1), Lowered(items, bytes, key, Size(r));
    forall k ensures Tallies(log', OfLane(k), At(items', k), At(bytes', k)) {
      assert Tallies(log, OfLane(k), At(items, k), At(bytes, k));
      SumWithout(log, r, OfLane(k), false);
      SumWithout(log, r, OfLane(k), true);
      NoItemsNoBytes(log', OfLane(k));
    }
  }

  lemma DevicesLowered(log: seq<Record>, r: Record, items: map<string, int>, bytes: map<string, int>)
    requires Ordered(log) && r in log && DeviceTallies(log, items, bytes)
    ensures var d := r.id.payload.device;
            DeviceTallies(Without(log, r.id), Lowered(items, items, d, 1), Lowered(items, bytes, d, Size(r)))
  {
    var d, log' := r.id.payload.device, Without(log, r.id);
    hide Sum, Size, Without;
    var items', bytes' := Lowered(items, items, d, 1), Lowered(items, bytes, d, Size(r));
    forall k ensures Tallies(log', OfDevice(k), At(items', k), At(bytes', k)) {
      assert Tallies(log, OfDevice(k), At(items, k), At(bytes, k));
      SumWithout(log, r, OfDevice(k), false);
      SumWithout(log, r, OfDevice(k), true);
      NoItemsNoBytes(log', OfDevice(k));
    }
  }

  // ---------------------------------------------------------------------
  // The queue
  // ---------------------------------------------------------------------

  /** `order` names exactly the entries, each once, under its own identifier. */
  predicate Lists(order: seq<Id>, entries: map<Id, Record>) {
    && (forall id | id in order :: id in entries)
    && (forall id | id in entries :: id in order && entries[id].id == id)
    && (forall i, j | 0 <= i < j < |order| :: order[i] != order[j])
  }

  lemma {:induction false} ListedOnce(order: seq<Id>, ids: set<Id>)
    requires (forall i, j | 0 <= i < j < |order| :: order[i] != order[j]) && (forall id :: id in order <==> id in ids)
    ensures |ids| == |order|
  {
    if order == [] {
      assert ids == {};
    } else {
      assert Last(order) in order;
      forall id ensures id in Front(order) <==> id in ids - {Last(order)} {
        if id in order && id != Last(order) {
          var i :| 0 <= i < |order| && order[i] == id;
          assert Front(order)[i] == id;
        }
      }
      ListedOnce(Front(order), ids - {Last(order)});
    }
  }

  lemma LogHas(order: seq<Id>, entries: map<Id, Record>, r: Record)
    requires Lists(order, entries)
    ensures r in LogOf(order, entries) <==> r.id in entries && entries[r.id] == r
  {
    LogAt(order, entries);
    if r.id in entries && entries[r.id] == r {
      var i :| 0 <= i < |order| && order[i] == r.id;
      assert LogOf(order, entries)[i] == r;
    }
    if r in LogOf(order, entries) {
      var i :| 0 <= i < |order| && LogOf(order, entries)[i] == r;
      assert order[i] in order;
    }
  }

  lemma FindsEntry(order: seq<Id>, entries: map<Id, Record>, id: Id)
    requires Lists(order, entries)
    ensures Find(LogOf(order, entries), id) == if id in entries then Some(entries[id]) else None
  {
    var log := LogOf(order, entries);
    FindsQueued(log, id);
    if Find(log, id).Some? { LogHas(order, entries, Find(log, id).value); }
    if id in entries {
      LogHas(order, entries, entries[id]);
      QueuedIn(log, entries[id]);
    }
  }

  predicate NoRepeats(order: seq<Id>) {
    forall i, j | 0 <= i < j < |order| :: order[i] != order[j]
  }

  lemma RestHas(order: seq<Id>, i: nat, id: Id)
    requires NoRepeats(order) && i < |order|
    ensures NoRepeats(order[..i] + order[i + 1..])
    ensures id in order[..i] + order[i + 1..] <==> id in order && id != order[i]
  {
    var rest := order[..i] + order[i + 1..];
    if id in order && id != order[i] {
      var j :| 0 <= j < |order| && order[j] == id;
      assert rest[if j < i then j else j - 1] == id;
    }
  }

  lemma LogWithout(order: seq<Id>, entries: map<Id, Record>, i: nat)
    requires (forall id | id in order :: id in entries) && i < |order|
    ensures i < |LogOf(order, entries)| && LogOf(order, entries)[i] == entries[order[i]]
    ensures var log := LogOf(order, entries); LogOf(order[..i] + order[i + 1..], entries) == log[..i] + log[i + 1..]
  {
    var rest, log := order[..i] + order[i + 1..], LogOf(order, entries);
    assert forall id | id in rest :: id in order;
    LogAt(order, entries);
    LogAt(rest, entries);
    hide LogOf;
    forall k | 0 <= k < |rest| ensures LogOf(rest, entries)[k] == (log[..i] + log[i + 1..])[k] {
      assert rest[k] == if k < i then order[k] else order[k + 1];
    }
  }

  /** The sums do not depend on the order. */
  lemma {:induction false} PermutedSums(order: seq<Id>, order': seq<Id>, entries: map<Id, Record>, scope: Scope,
      bytes: bool)
    requires NoRepeats(order) && NoRepeats(order') && (forall id :: id in order <==> id in order')
    requires forall id | id in order :: id in entries
    ensures Sum(LogOf(order, entries), scope, bytes) == Sum(LogOf(order', entries), scope, bytes)
    decreases |order'|
  {
    EmptyTogether(order, order');
    if order' != [] {
      var x := Last(order');
      assert x in order';
      var i :| 0 <= i < |order| && order[i] == x;
      var rest := order[..i] + order[i + 1..];
      forall id ensures id in rest <==> id in Front(order') {
        RestHas(order, i, id);
        RestHas(order', |order'| - 1, id);
        assert order'[..|order'| - 1] + order'[|order'|..] == Front(order');
      }
      RestHas(order, i, x);
      PermutedSums(rest, Front(order'), entries, scope, bytes);
      LogWithout(order, entries, i);
      SumSplit(LogOf(order, entries), i, scope, bytes);
      SumAppend(LogOf(Front(order'), entries), entries[x], scope, bytes);
    }
  }

  predicate Sequenced(entries: map<Id, Record>) {
    forall id, id' | id in entries && id' in entries && id != id' :: entries[id].seqno != entries[id'].seqno
  }

  predicate SortedBy(ids: seq<Id>, entries: map<Id, Record>)
    requires forall id | id in ids :: id in entries
  {
    forall a, b | 0 <= a < b < |ids| :: entries[ids[a]].seqno < entries[ids[b]].seqno
  }

  /** Sorts identifiers by their records' sequences. */
  method SortIds(ids: seq<Id>, entries: map<Id, Record>) returns (sorted: seq<Id>)
    requires Lists(ids, entries) && Sequenced(entries)
    ensures forall id :: id in sorted <==> id in ids
    ensures SortedBy(sorted, entries)
  {
    sorted := [];
    for i := 0 to |ids|
      invariant forall id :: id in sorted <==> id in ids[..i]
      invariant SortedBy(sorted, entries)
    {
      var x := ids[i];
      assert ids[..i + 1] == ids[..i] + [x];
      var j := Position(sorted, x, entries);
      assert sorted == sorted[..j] + sorted[j..];
      sorted := sorted[..j] + [x] + sorted[j..];
    }
    assert ids[..|ids|] == ids;
  }

  /** Where an entry belongs among ordered ones. */
  method Position(sorted: seq<Id>, x: Id, entries: map<Id, Record>) returns (j: nat)
    requires x in entries && x !in sorted && Sequenced(entries) && (forall id | id in sorted :: id in entries)
             && SortedBy(sorted, entries)
    ensures j <= |sorted|
    ensures forall a | 0 <= a < j :: entries[sorted[a]].seqno < entries[x].seqno
    ensures forall a | j <= a < |sorted| :: entries[sorted[a]].seqno > entries[x].seqno
  {
    j := 0;
    while j < |sorted| && entries[sorted[j]].seqno < entries[x].seqno
      invariant 0 <= j <= |sorted|
      invariant forall a | 0 <= a < j :: entries[sorted[a]].seqno < entries[x].seqno
    {
      j := j + 1;
    }
    if j < |sorted| { assert sorted[j] in sorted; }
  }

  lemma SortedLists(order: seq<Id>, sorted: seq<Id>, entries: map<Id, Record>)
    requires Lists(order, entries) && (forall id :: id in sorted <==> id in order) && SortedBy(sorted, entries)
    ensures Lists(sorted, entries) && Ordered(LogOf(sorted, entries))
    ensures forall scope, bytes :: Sum(LogOf(sorted, entries), scope, bytes) == Sum(LogOf(order, entries), scope, bytes)
  {
    hide Sum, LogOf;
    LogAt(sorted, entries);
    forall scope, bytes ensures Sum(LogOf(sorted, entries), scope, bytes) == Sum(LogOf(order, entries), scope, bytes) {
      PermutedSums(sorted, order, entries, scope, bytes);
    }
  }

  datatype Answer =
    | NewlyQueued(record: Record)
    | AlreadyQueued(record: Record)
    | EmptyPayload
    | NotAdmitted(verdict: Verdict)
    | WriteError

  class DurableQueue {
    const settings: Settings
    var entries: map<Id, Record>
    var sizes: map<Id, int>
    var order: seq<Id>
    var bytes: int
    var nextSeq: int
    var laneItems: map<LaneKey, int>
    var laneBytes: map<LaneKey, int>
    var deviceItems: map<string, int>
    var deviceBytes: map<string, int>
    var holds: map<Id, HoldRecord<Id>>
    var backoffs: map<Id, Backoff>
    var disk: Disk

    ghost predicate Indexed()
      reads this`entries, this`sizes, this`order, this`bytes, this`laneItems, this`laneBytes, this`deviceItems,
            this`deviceBytes
    {
      && Lists(order, entries)
      && sizes.Keys == entries.Keys && (forall id | id in entries :: sizes[id] == Size(entries[id]))
      && bytes == Sum(LogOf(order, entries), Everyone, true)
      && LaneTallies(LogOf(order, entries), laneItems, laneBytes)
      && DeviceTallies(LogOf(order, entries), deviceItems, deviceBytes)
    }

    ghost function View(): Store
      reads this
      requires Lists(order, entries)
    {
      Store(Content(LogOf(order, entries), holds, backoffs), nextSeq, disk)
    }

    ghost predicate Valid()
      reads this
    {
      Indexed() && Sound(settings, View())
    }

    /** A queue over a directory not yet loaded. */
    constructor (s: Settings, disk: Disk)
      ensures settings == s && this.disk == disk && nextSeq == 1
      ensures Indexed() && order == [] && holds == map[] && backoffs == map[]
    {
      settings := s;
      this.disk := disk;
      entries, sizes, order, bytes, nextSeq := map[], map[], [], 0, 1;
      laneItems, laneBytes, deviceItems, deviceBytes := map[], map[], map[], map[];
      holds, backoffs := map[], map[];
    }

    /** Whether a lane's share refuses one more record, or that many more bytes. */
    method LaneShareRefuses(key: LaneKey, size: int) returns (refused: bool)
      requires Indexed() && size >= 0
      ensures refused == !ShareHasRoom(settings, LogOf(order, entries), key, if size == 0 then 1 else size, size > 0)
      ensures settings.reserved && settings.configured.Some? && settings.configured.value != {} ==>
                var log, n := LogOf(order, entries), |settings.configured.value|;
                refused <==>
                  if size == 0 then
                    || Sum(log, OfDevice(key.device), false) >= settings.maxItems / n
                    || (key.lane == Evidence && Sum(log, OfLane(key), false) >= settings.maxItems / n - 1)
                  else
                    || Sum(log, OfDevice(key.device), true) + size > settings.maxBytes / n
                    || (key.lane == Evidence
                        && Sum(log, OfLane(key), true) + size > settings.maxBytes / n - MAX_QUEUE_RECORD_BYTES)
    {
      ghost var log := LogOf(order, entries);
      assert Tallies(log, OfLane(key), At(laneItems, key), At(laneBytes, key));
      assert Tallies(log, OfDevice(key.device), At(deviceItems, key.device), At(deviceBytes, key.device));
      NoItemsNoBytes(log, OfLane(key));
      NoItemsNoBytes(log, OfDevice(key.device));
      hide Sum, Size, LogOf, LaneTallies, DeviceTallies;
      var reserved := settings.reserved && key.lane != Registration;
      if size == 0 {
        refused := Get(deviceItems, key.device) >= Share(settings, false)
                   || (reserved && Get(laneItems, key) >= Share(settings, false) - 1);
      } else {
        refused := Get(deviceBytes, key.device) + size > Share(settings, true)
                   || (reserved && Get(laneBytes, key) + size > Share(settings, true) - MAX_QUEUE_RECORD_BYTES);
      }
    }

    /** Counts a record just appended to the order. */
    method Index(record: Record, size: int)
      requires size == Size(record)
      modifies this`laneItems, this`laneBytes, this`deviceItems, this`deviceBytes
      ensures forall log | LaneTallies(log, old(laneItems), old(laneBytes)) ::
              LaneTallies(log + [record], laneItems, laneBytes)
      ensures forall log | DeviceTallies(log, old(deviceItems), old(deviceBytes)) ::
              DeviceTallies(log + [record], deviceItems, deviceBytes)
    {
      var key := KeyOf(record.id);
      laneItems, laneBytes := Bumped(laneItems, key, 1), Bumped(laneBytes, key, size);
      deviceItems, deviceBytes := Bumped(deviceItems, key.device, 1), Bumped(deviceBytes, key.device, size);
      hide LaneTallies, DeviceTallies, Bumped;
      forall log | LaneTallies(log, old(laneItems), old(laneBytes))
          ensures LaneTallies(log + [record], laneItems, laneBytes) {
        LanesBumped(log, record, old(laneItems), old(laneBytes));
      }
      forall log | DeviceTallies(log, old(deviceItems), old(deviceBytes))
          ensures DeviceTallies(log + [record], deviceItems, deviceBytes) {
        DevicesBumped(log, record, old(deviceItems), old(deviceBytes));
      }
    }

    /** Takes a record out of the counts, and deletes the keys that reach nothing. */
    method Unindex(record: Record, size: int, ghost log: seq<Record>)
      requires size == Size(record) && Ordered(log) && record in log
      requires LaneTallies(log, laneItems, laneBytes) && DeviceTallies(log, deviceItems, deviceBytes)
      modifies this`laneItems, this`laneBytes, this`deviceItems, this`deviceBytes
      ensures LaneTallies(Without(log, record.id), laneItems, laneBytes)
      ensures DeviceTallies(Without(log, record.id), deviceItems, deviceBytes)
    {
      hide LaneTallies, DeviceTallies, Without, Size;
      var key := KeyOf(record.id);
      LanesLowered(log, record, laneItems, laneBytes);
      DevicesLowered(log, record, deviceItems, deviceBytes);
      laneItems, laneBytes := Lowered(laneItems, laneItems, key, 1), Lowered(laneItems, laneBytes, key, size);
      var d := key.device;
      deviceItems, deviceBytes := Lowered(deviceItems, deviceItems, d, 1), Lowered(deviceItems, deviceBytes, d, size);
    }

    /** Orders the entries by sequence. */
    method SortOrder()
      requires Indexed() && Sequenced(entries)
      modifies this`order
      ensures Indexed() && Ordered(LogOf(order, entries))
    {
      hide Sum, LogOf, Size, LaneTallies, DeviceTallies;
      var sorted := SortIds(order, entries);
      SortedLists(order, sorted, entries);
      SameTallies(LogOf(order, entries), LogOf(sorted, entries), laneItems, laneBytes, deviceItems, deviceBytes);
      order := sorted;
    }

    /** Takes a record into memory, last in the order. */
    method Append(record: Record)
      requires Indexed() && record.id !in entries
      modifies this`entries, this`sizes, this`order, this`bytes, this`laneItems, this`laneBytes, this`deviceItems,
               this`deviceBytes
      ensures Indexed() && LogOf(order, entries) == old(LogOf(order, entries)) + [record]
      ensures entries == old(entries)[record.id := record]
    {
      hide Sum, Size, LogOf, LaneTallies, DeviceTallies;
      ghost var log := LogOf(order, entries);
      AppendLists(order, entries, record);
      SumAppend(log, record, Everyone, true);
      var size := Size(record);
      entries := entries[record.id := record];
      sizes := sizes[record.id := size];
      Index(record, size);
      order := order + [record.id];
      bytes := bytes + size;
    }

    /** Every check of an insert, in order, against the maps. */
    method Check(record: Record) returns (verdict: Verdict)
      requires Indexed()
      ensures verdict == Admission(settings, LogOf(order, entries), record)
    {
      ListedOnce(order, entries.Keys);
      LogAt(order, entries);
      hide Sum, Size, LogOf, LaneTallies, DeviceTallies, ShareHasRoom;
      var key := KeyOf(record.id);
      if !Configured(settings, key.device) { return NotConfigured; }
      if |entries| >= settings.maxItems { return Full(false, false); }
      var full := LaneShareRefuses(key, 0);
      if full { return Full(false, true); }
      if record.at <= 0 { return BadClock; }
      var size := Size(record);
      if bytes + size > settings.maxBytes { return Full(true, false); }
      full := LaneShareRefuses(key, size);
      return if full then Full(true, true) else Admitted;
    }

    /** Queues an artifact, or finds the entry already held for the same bytes. A
        new entry's file is in the directory before this returns. */
    method Insert(id: Id, now: int, wrote: Wrote) returns (answer: Answer)
      requires Valid()
      modifies this
      ensures Valid() && View() == Step(settings, old(View()), Op.Insert(id, now, wrote))
      ensures answer.NewlyQueued? <==> id !in old(entries) && id in entries
      ensures answer.NewlyQueued? <==>
                && id.payload.size > 0 && id !in old(entries) && wrote.Committed?
                && Admission(settings, old(View()).content.log, Record(id, old(nextSeq), now)) == Admitted
      ensures answer.NewlyQueued? ==> answer.record == Record(id, old(nextSeq), now)
      ensures answer.NewlyQueued? ==>
                View().content.log == old(View()).content.log + [answer.record] && RecordName(id) in disk
      ensures answer.AlreadyQueued? ==>
                id in old(entries) && answer.record == old(entries)[id] && View() == old(View())
                && entries == old(entries)
      ensures answer.NewlyQueued? || answer.AlreadyQueued? ==> id in entries && answer.record == entries[id]
      ensures !answer.NewlyQueued? && !answer.AlreadyQueued? ==>
                entries == old(entries) && (answer.EmptyPayload? || id !in entries)
      ensures answer.EmptyPayload? <==> id.payload.size == 0
      ensures answer.NotAdmitted? ==>
                answer.verdict
                == Admission(settings, old(View()).content.log, Record(id, old(nextSeq), now)) != Admitted
    {
      hide Sum, Size, Sound, LogOf, LaneTallies, DeviceTallies, Admission, Find;
      StepKeeps(settings, View(), Op.Insert(id, now, wrote));
      SoundOrder(settings, View());
      FindsEntry(order, entries, id);
      if id.payload.size == 0 { return EmptyPayload; }
      if id in entries { return AlreadyQueued(entries[id]); }
      var record := Record(id, nextSeq, now);
      var verdict := Check(record);
      if verdict != Admitted { return NotAdmitted(verdict); }
      disk := Written(disk, RecordName(id), RecordFile(1, id, record), wrote);
      if !wrote.Committed? { return WriteError; }
      Commit(record);
      return NewlyQueued(record);
    }

    /** Records that a queued artifact is held. */
    method Hold(hold: HoldRecord<Id>, wrote: Wrote) returns (ok: bool)
      requires Valid()
      modifies this`disk, this`holds
      ensures Valid() && View() == Step(settings, old(View()), SetHold(hold, wrote))
      ensures ok <==> hold.record in entries && ValidHold(hold.(v := 1), hold.record) && wrote.Committed?
      ensures ok ==> hold.record in holds && HoldName(hold.record) in disk
    {
      hide Sum, Size, Sound, LogOf, LaneTallies, DeviceTallies, Find, ValidHold;
      StepKeeps(settings, View(), SetHold(hold, wrote));
      FindsEntry(order, entries, hold.record);
      if hold.record !in entries { return false; }
      var record := hold.(v := 1);
      if !ValidHold(record, hold.record) { return false; }
      disk := Written(disk, HoldName(hold.record), HoldFile(record), wrote);
      if !wrote.Committed? { return false; }
      holds := holds[hold.record := record];
      return true;
    }

    /** Records when a queued artifact may next be sent. */
    method PutBackoff(backoff: Backoff, wrote: Wrote) returns (ok: bool)
      requires Valid()
      modifies this`disk, this`backoffs
      ensures Valid() && View() == Step(settings, old(View()), SetBackoff(backoff, wrote))
      ensures ok <==> backoff.record in entries && ValidBackoff(Versioned(backoff)) && wrote.Committed?
      ensures ok ==> backoff.record in backoffs && BackoffName(backoff.record) in disk
    {
      hide Sum, Size, Sound, LogOf, LaneTallies, DeviceTallies, Find, ValidBackoff;
      StepKeeps(settings, View(), SetBackoff(backoff, wrote));
      FindsEntry(order, entries, backoff.record);
      if backoff.record !in entries { return false; }
      var record := backoff.(v := if backoff.retryAfter.Some? then 2 else 1);
      if !ValidBackoff(record) { return false; }
      disk := Written(disk, BackoffName(backoff.record), BackoffFile(record), wrote);
      if !wrote.Committed? { return false; }
      backoffs := backoffs[backoff.record := record];
      return true;
    }

    method RemoveHold(id: Id, removed: Removed) returns (on: bool)
      requires Valid()
      modifies this`disk, this`holds
      ensures Valid() && (View(), on) == DropHold(old(View()), id, removed)
      ensures on <==> removed == Gone || id !in old(holds)
      ensures forall other :: RecordName(other) in disk <==> RecordName(other) in old(disk)
    {
      hide Sum, Size, Sound, LogOf, LaneTallies, DeviceTallies;
      DropHoldKeeps(settings, View(), id, removed);
      if id !in holds { return true; }
      if removed == NotUnlinked { return false; }
      disk := disk - {HoldName(id)};
      if removed == NotSynced { return false; }
      holds := holds - {id};
      return true;
    }

    method RemoveBackoff(id: Id, removed: Removed) returns (on: bool)
      requires Valid()
      modifies this`disk, this`backoffs
      ensures Valid() && (View(), on) == DropBackoff(old(View()), id, removed)
      ensures on <==> removed == Gone || id !in old(backoffs)
      ensures forall other :: RecordName(other) in disk <==> RecordName(other) in old(disk)
    {
      hide Sum, Size, Sound, LogOf, LaneTallies, DeviceTallies;
      DropBackoffKeeps(settings, View(), id, removed);
      if id !in backoffs { return true; }
      if removed == NotUnlinked { return false; }
      disk := disk - {BackoffName(id)};
      if removed == NotSynced { return false; }
      backoffs := backoffs - {id};
      return true;
    }

    /** Retires one record: its hold, its back-off, then its file, which is written
        back when the removal cannot be confirmed; only then is it forgotten. */
    method Remove(id: Id, holdRemoved: Removed, backoffRemoved: Removed, removed: Removed, restored: Wrote)
      returns (ok: bool)
      requires Valid()
      modifies this
      ensures Valid()
      ensures View() == Step(settings, old(View()), Retire(id, holdRemoved, backoffRemoved, removed, restored))
      ensures ok <==> id in old(entries) && id !in entries
      ensures ok ==> View().content.log == Without(old(View()).content.log, id) && RecordName(id) !in disk
      ensures id in old(entries) && RecordName(id) in old(disk) && holdRemoved == backoffRemoved == removed == Gone ==>
                ok
    {
      hide Sum, Size, Sound, LogOf, LaneTallies, DeviceTallies, Find, Without, DropRecord, DropHold, DropBackoff,
          Ordered;
      SidecarsGoFirst(settings, View(), id, holdRemoved, backoffRemoved);
      StepKeeps(settings, View(), Retire(id, holdRemoved, backoffRemoved, removed, restored));
      FindsEntry(order, entries, id);
      SoundOrder(settings, View());
      if id !in entries { return false; }
      var record := entries[id];
      var on := RemoveHold(id, holdRemoved);
      if !on { return false; }
      on := RemoveBackoff(id, backoffRemoved);
      if !on { return false; }
      ok := RemoveFile(record, removed, restored);
    }

    method RemoveFile(record: Record, removed: Removed, restored: Wrote) returns (ok: bool)
      requires Indexed() && Ordered(LogOf(order, entries)) && record.id in entries && entries[record.id] == record
      modifies this
      ensures Indexed() && View() == DropRecord(old(View()), record, removed, restored)
      ensures ok <==> record.id !in entries
      ensures ok <==> RecordName(record.id) in old(disk) && removed == Gone
      ensures ok ==> View().content.log == Without(old(View()).content.log, record.id) && RecordName(record.id) !in disk
    {
      hide Sum, Size, LogOf, LaneTallies, DeviceTallies, Without, Ordered;
      var name := RecordName(record.id);
      if name !in disk || removed == NotUnlinked { return false; }
      disk := disk - {name};
      if removed == NotSynced {
        disk := Written(disk, name, RecordFile(1, record.id, record), restored);
        return false;
      }
      Forget(record.id);
      return true;
    }

    method Forget(id: Id)
      requires Indexed() && Ordered(LogOf(order, entries)) && id in entries
      modifies this`entries, this`sizes, this`order, this`bytes, this`laneItems, this`laneBytes, this`deviceItems,
               this`deviceBytes
      ensures Indexed() && LogOf(order, entries) == Without(old(LogOf(order, entries)), id)
              && entries == old(entries) - {id}
    {
      hide Sum, Size, LogOf, LaneTallies, DeviceTallies, Without, Ordered;
      var record, size := entries[id], sizes[id];
      ghost var log := LogOf(order, entries);
      LogHas(order, entries, record);
      Unindex(record, size, log);
      SumWithout(log, record, Everyone, true);
      Unlist(id);
      bytes := bytes - size;
    }

    method Unlist(id: Id)
      requires Lists(order, entries) && Ordered(LogOf(order, entries)) && id in entries && sizes.Keys == entries.Keys
      modifies this`entries, this`sizes, this`order
      ensures entries == old(entries) - {id} && sizes == old(sizes) - {id}
      ensures Lists(order, entries) && LogOf(order, entries) == Without(old(LogOf(order, entries)), id)
    {
      hide LogOf, Without, Ordered;
      var i := IndexOf(id);
      ForgetLists(order, entries, i);
      entries := entries - {id};
      sizes := sizes - {id};
      order := order[..i] + order[i + 1..];
    }

    method IndexOf(id: Id) returns (i: nat)
      requires id in order
      ensures i < |order| && order[i] == id
    {
      i := 0;
      while order[i] != id
        invariant 0 <= i < |order| && id in order[i..]
        decreases |order| - i
      {
        i := i + 1;
      }
    }

    /** The oldest queued artifact of one lane. */
    method PeekLane(key: LaneKey) returns (head: Option<Record>)
      requires Valid()
      ensures head == LaneHead(View().content.log, key)
    {
      hide Sum, Size, LogOf, LaneTallies, DeviceTallies, Sound, LaneHead;
      head := FirstOf(order, entries, key);
    }

    /** Reads one record file. */
    method LoadRecord(files: Disk, id: Id, seen: set<int>, ghost read: set<Name>) returns (ok: bool, seen': set<int>)
      requires Indexed() && ReadBack(files, entries, read) && NextIs(nextSeq, entries) && SeenSeqs(seen, entries)
      requires RecordName(id) in files && RecordName(id) !in read
      modifies this`entries, this`sizes, this`order, this`bytes, this`laneItems, this`laneBytes, this`deviceItems,
               this`deviceBytes, this`nextSeq
      ensures Indexed()
      ensures !ok ==> !Loadable(settings, files)
      ensures ok ==>
                ReadBack(files, entries, read + {RecordName(id)}) && NextIs(nextSeq, entries)
                && SeenSeqs(seen', entries)
    {
      hide Sum, Size, LogOf, LaneTallies, DeviceTallies, Loadable, ReadBack, NextIs, SeenSeqs;
      var read' := ReadRecord(settings, files, id, seen, entries, read);
      if read'.None? { return false, seen; }
      var record := read'.value;
      NextStep(nextSeq, entries, seen, record);
      Append(record);
      if record.seqno >= nextSeq { nextSeq := record.seqno + 1; }
      return true, seen + {record.seqno};
    }

    /** Where loading stands once the files of `read` have been read. */
    ghost predicate Reading(files: Disk, read: set<Name>, seen: set<int>, heldIds: seq<Id>, backedOffIds: seq<Id>)
      reads this`entries, this`sizes, this`order, this`bytes, this`laneItems, this`laneBytes, this`deviceItems,
            this`deviceBytes, this`nextSeq, this`disk
    {
      && Indexed()
      && ReadBack(files, entries, read) && NextIs(nextSeq, entries) && SeenSeqs(seen, entries)
      && Noted(heldIds, backedOffIds, read)
      && disk == if TempName in read then files - {TempName} else files
    }

    method LoadName(files: Disk, name: Name, seen: set<int>, heldIds: seq<Id>, backedOffIds: seq<Id>,
        ghost read: set<Name>)
      returns (ok: bool, seen': set<int>, heldIds': seq<Id>, backedOffIds': seq<Id>)
      requires Reading(files, read, seen, heldIds, backedOffIds) && name in files && name !in read
      modifies this`entries, this`sizes, this`order, this`bytes, this`laneItems, this`laneBytes, this`deviceItems,
               this`deviceBytes, this`nextSeq, this`disk
      ensures !ok ==> !Loadable(settings, files)
      ensures ok ==> Reading(files, read + {name}, seen', heldIds', backedOffIds')
    {
      hide Loadable, ReadBack, NextIs, Indexed, SeenSeqs, Noted;
      ok, seen', heldIds', backedOffIds' := true, seen, heldIds, backedOffIds;
      NotedStep(heldIds, backedOffIds, read, name);
      if name.RecordName? {
        ok, seen' := LoadRecord(files, name.id, seen, read);
      } else if name.OtherName? {
        OtherRefuses(settings, files, name);
        ok := false;
      } else {
        ReadOther(files, entries, read, name);
        if name.HoldName? {
          heldIds' := heldIds + [name.id];
        } else if name.BackoffName? {
          backedOffIds' := backedOffIds + [name.id];
        } else {
          disk := disk - {TempName};
        }
      }
    }

    /** Reads every record file, and notes the sidecars for later. */
    method LoadRecords(names: seq<Name>) returns (ok: bool, heldIds: seq<Id>, backedOffIds: seq<Id>)
      requires Indexed() && order == [] && nextSeq == 1 && ListsNames(names, disk)
      modifies this`entries, this`sizes, this`order, this`bytes, this`laneItems, this`laneBytes, this`deviceItems,
               this`deviceBytes, this`nextSeq, this`disk
      ensures !ok ==> !Loadable(settings, old(disk))
      ensures ok ==> exists seen :: Reading(old(disk), old(disk).Keys, seen, heldIds, backedOffIds)
    {
      assert entries == map[];
      var files := disk;
      var seen: set<int> := {};
      heldIds, backedOffIds := [], [];
      NothingRead(files);
      SeenAll(names, files);
      assert Reading(files, Seen(names, 0), seen, heldIds, backedOffIds);
      hide Reading, Loadable, Seen, ListsNames;
      for i := 0 to |names|
        invariant Reading(files, Seen(names, i), seen, heldIds, backedOffIds)
      {
        SeenStep(names, files, i);
        ok, seen, heldIds, backedOffIds := LoadName(files, names[i], seen, heldIds, backedOffIds, Seen(names, i));
        if !ok { return; }
      }
      ok := true;
    }

    /** Reads every hold, each against the record it names. */
    method LoadHolds(files: Disk, ids: seq<Id>) returns (ok: bool)
      requires holds == map[] && ReadBack(files, entries, files.Keys)
               && (forall id :: id in ids <==> HoldName(id) in files)
      modifies this`holds
      ensures !ok ==> !Loadable(settings, files)
      ensures ok ==> HoldsRead(files, entries, holds)
    {
      hide Loadable;
      for i := 0 to |ids|
        invariant forall id :: id in holds <==> id in ids[..i]
        invariant forall id | id in holds ::
                    HoldFileOK(files[HoldName(id)], id, entries) && files[HoldName(id)].hold == holds[id]
      {
        var id := ids[i];
        assert ids[..i + 1] == ids[..i] + [id];
        assert HoldName(id) in files by { assert id in ids; }
        if !HoldFileOK(files[HoldName(id)], id, entries) {
          if Loadable(settings, files) { LoadableSidecars(settings, files, entries, id); }
          return false;
        }
        holds := holds[id := files[HoldName(id)].hold];
      }
      assert ids[..|ids|] == ids;
      return true;
    }

    /** Reads every back-off, likewise. */
    method LoadBackoffs(files: Disk, ids: seq<Id>) returns (ok: bool)
      requires backoffs == map[] && ReadBack(files, entries, files.Keys)
               && (forall id :: id in ids <==> BackoffName(id) in files)
      modifies this`backoffs
      ensures !ok ==> !Loadable(settings, files)
      ensures ok ==> BackoffsRead(files, entries, backoffs)
    {
      hide Loadable;
      for i := 0 to |ids|
        invariant forall id :: id in backoffs <==> id in ids[..i]
        invariant forall id | id in backoffs ::
                    BackoffFileOK(files[BackoffName(id)], id, entries) && files[BackoffName(id)].backoff == backoffs[id]
      {
        var id := ids[i];
        assert ids[..i + 1] == ids[..i] + [id];
        assert BackoffName(id) in files by { assert id in ids; }
        if !BackoffFileOK(files[BackoffName(id)], id, entries) {
          if Loadable(settings, files) { LoadableSidecars(settings, files, entries, id); }
          return false;
        }
        backoffs := backoffs[id := files[BackoffName(id)].backoff];
      }
      assert ids[..|ids|] == ids;
      return true;
    }

    /** Orders what was read, and checks it against the bounds. */
    method Settle(files: Disk) returns (ok: bool)
      requires Indexed() && ReadBack(files, entries, files.Keys)
      modifies this`order
      ensures Indexed() && Ordered(LogOf(order, entries))
      ensures ok ==>
                |LogOf(order, entries)| <= settings.maxItems
                && Sum(LogOf(order, entries), Everyone, true) <= settings.maxBytes
      ensures !ok ==> !Loadable(settings, files)
    {
      hide Loadable, Sum, LogOf, LaneTallies, DeviceTallies, Ordered, Size, RecordFileOK;
      SortOrder();
      ListedOnce(order, entries.Keys);
      LogAt(order, entries);
      ok := |entries| <= settings.maxItems && bytes <= settings.maxBytes;
      if !ok && Loadable(settings, files) { LoadableBounds(settings, files, entries, order); }
    }

    method LoadSidecars(files: Disk, heldIds: seq<Id>, backedOffIds: seq<Id>) returns (ok: bool)
      requires holds == map[] && backoffs == map[]
      requires ReadBack(files, entries, files.Keys) && Noted(heldIds, backedOffIds, files.Keys)
      modifies this`holds, this`backoffs
      ensures !ok ==> !Loadable(settings, files)
      ensures ok ==> HoldsRead(files, entries, holds) && BackoffsRead(files, entries, backoffs)
    {
      hide Loadable, HoldsRead, BackoffsRead, ReadBack;
      ok := LoadHolds(files, heldIds);
      if ok { ok := LoadBackoffs(files, backedOffIds); }
    }

    /** Reconstructs the queue from its directory, listed in any order. It starts
        exactly when the directory loads, and holds exactly what it loads. */
    method Load(names: seq<Name>) returns (ok: bool)
      requires Indexed() && order == [] && nextSeq == 1 && holds == map[] && backoffs == map[]
               && ListsNames(names, disk)
      modifies this
      ensures ok ==> Valid()
      ensures ok ==> Started(settings, old(disk)) == Serving(View())
      ensures !ok ==> Started(settings, old(disk)) == RefusedToStart
    {
      hide Loadable, HoldsRead, BackoffsRead, Sum, LogOf, LaneTallies, DeviceTallies, Ordered, Size, Started, NextIs,
          SeenSeqs, Sound, ReadBack, Noted, ListsNames;
      var files := disk;
      var heldIds, backedOffIds;
      ok, heldIds, backedOffIds := LoadRecords(names);
      if ok { ok := Settle(files); }
      if ok { ok := LoadSidecars(files, heldIds, backedOffIds); }
      if ok {
        LoadedAll(settings, files, entries, order, holds, backoffs, nextSeq);
        assert disk == files - {TempName};
        assert Indexed() && Sound(settings, View());
      } else {
        RefusesToStart(settings, files);
      }
    }

    /** The oldest queued artifact. */
    method Peek() returns (head: Option<Record>)
      requires Valid()
      ensures head == if View().content.log == [] then None else Some(View().content.log[0])
    {
      hide Sum, Size, LogOf, LaneTallies, DeviceTallies, Sound;
      LogAt(order, entries);
      if order == [] { return None; }
      return Some(entries[order[0]]);
    }

    method Commit(record: Record)
      requires Indexed() && Ordered(LogOf(order, entries)) && record.id !in entries
      requires record.seqno == nextSeq && (forall r | r in LogOf(order, entries) :: r.seqno < nextSeq)
      modifies this`entries, this`sizes, this`order, this`bytes, this`laneItems, this`laneBytes, this`deviceItems,
               this`deviceBytes, this`nextSeq
      ensures Indexed() && LogOf(order, entries) == old(LogOf(order, entries)) + [record] && nextSeq == old(nextSeq) + 1
      ensures entries == old(entries)[record.id := record]
    {
      hide Sum, Size, LogOf, LaneTallies, DeviceTallies, Ordered, Lists;
      ghost var ids := order;
      ghost var before := entries;
      EntriesBelow(order, entries, nextSeq);
      Append(record);
      SortOrder();
      AppendStaysSorted(ids, before, record, order);
      nextSeq := nextSeq + 1;
    }
  }

  lemma AppendLists(ids: seq<Id>, entries: map<Id, Record>, record: Record)
    requires Lists(ids, entries) && record.id !in entries
    ensures Lists(ids + [record.id], entries[record.id := record])
    ensures LogOf(ids + [record.id], entries[record.id := record]) == LogOf(ids, entries) + [record]
  {
    assert Front(ids + [record.id]) == ids && Last(ids + [record.id]) == record.id;
    LogSame(ids, entries, entries[record.id := record]);
  }

  lemma SameTallies(log: seq<Record>, log': seq<Record>, laneItems: map<LaneKey, int>, laneBytes: map<LaneKey, int>,
                    deviceItems: map<string, int>, deviceBytes: map<string, int>)
    requires forall scope, bytes :: Sum(log, scope, bytes) == Sum(log', scope, bytes)
    requires LaneTallies(log, laneItems, laneBytes) && DeviceTallies(log, deviceItems, deviceBytes)
    ensures LaneTallies(log', laneItems, laneBytes) && DeviceTallies(log', deviceItems, deviceBytes)
  {
    hide Sum;
    forall k ensures Tallies(log', OfLane(k), At(laneItems, k), At(laneBytes, k)) {
      assert Tallies(log, OfLane(k), At(laneItems, k), At(laneBytes, k));
    }
    forall d ensures Tallies(log', OfDevice(d), At(deviceItems, d), At(deviceBytes, d)) {
      assert Tallies(log, OfDevice(d), At(deviceItems, d), At(deviceBytes, d));
    }
  }

  lemma SoundOrder(s: Settings, st: Store)
    requires Sound(s, st)
    ensures Ordered(st.content.log) && (forall r | r in st.content.log :: r.seqno < st.next)
  {
  }

  lemma ForgetLists(order: seq<Id>, entries: map<Id, Record>, i: nat)
    requires Lists(order, entries) && Ordered(LogOf(order, entries)) && i < |order|
    ensures var id, rest := order[i], order[..i] + order[i + 1..];
            Lists(rest, entries - {id}) && LogOf(rest, entries - {id}) == Without(LogOf(order, entries), id)
  {
    hide LogOf, Without;
    var id, rest, left := order[i], order[..i] + order[i + 1..], entries - {order[i]};
    forall other ensures other in rest <==> other in order && other != id { RestHas(order, i, other); }
    RestHas(order, i, id);
    LogSame(rest, entries, left);
    LogWithout(order, entries, i);
    var log := LogOf(order, entries);
    assert Ordered(log[..i] + log[i + 1..]);
    WithoutOrdered(log, id);
    forall r ensures r in LogOf(rest, left) <==> r in Without(log, id) {
      WithoutHas(log, id, r);
      LogHas(order, entries, r);
      LogHas(rest, left, r);
    }
    SortedOnce(LogOf(rest, left), Without(log, id));
  }

  method FirstOf(order: seq<Id>, entries: map<Id, Record>, key: LaneKey) returns (head: Option<Record>)
    requires Lists(order, entries)
    ensures head == LaneHead(LogOf(order, entries), key)
  {
    hide LogOf, LaneHead;
    ghost var log := LogOf(order, entries);
    LogAt(order, entries);
    EmptyLane(log, key);
    for i := 0 to |order|
      invariant LaneHead(log[..i], key) == None
    {
      HeadStep(log, i, key);
      if KeyOf(order[i]) == key {
        HeadStays(log, i + 1, key);
        return Some(entries[order[i]]);
      }
    }
    assert log[..|order|] == log;
    return None;
  }

  lemma EmptyLane(log: seq<Record>, key: LaneKey)
    ensures LaneHead(log[..0], key) == None
  {
  }

  lemma HeadStep(log: seq<Record>, i: nat, key: LaneKey)
    requires i < |log| && LaneHead(log[..i], key).None?
    ensures LaneHead(log[..i + 1], key) == if KeyOf(log[i].id) == key then Some(log[i]) else None
  {
    assert Front(log[..i + 1]) == log[..i];
  }

  lemma HeadStays(log: seq<Record>, i: nat, key: LaneKey)
    requires i <= |log| && LaneHead(log[..i], key).Some?
    ensures LaneHead(log, key) == LaneHead(log[..i], key)
  {
    assert log == log[..i] + log[i..];
    LaneConcat(log[..i], log[i..], key);
  }

  // ---------------------------------------------------------------------
  // Loading
  // ---------------------------------------------------------------------

  /** A directory listing: every name, once. */
  ghost predicate ListsNames(names: seq<Name>, disk: Disk) {
    && (forall name :: name in names <==> name in disk)
    && (forall i, j | 0 <= i < j < |names| :: names[i] != names[j])
  }

  function Seen(names: seq<Name>, i: nat): set<Name>
    requires i <= |names|
  {
    set name | name in names[..i]
  }

  lemma SeenStep(names: seq<Name>, disk: Disk, i: nat)
    requires ListsNames(names, disk) && i < |names|
    ensures Seen(names, i + 1) == Seen(names, i) + {names[i]} && names[i] !in Seen(names, i) && names[i] in disk
  {
    assert names[..i + 1] == names[..i] + [names[i]];
  }

  lemma SeenAll(names: seq<Name>, disk: Disk)
    requires ListsNames(names, disk)
    ensures Seen(names, |names|) == disk.Keys && Seen(names, 0) == {}
  {
    assert names[..|names|] == names;
  }

  /** What loading asks of a record file. */
  predicate RecordFileOK(file: File, id: Id) {
    file.RecordFile? && file.v == 1 && file.claimed == id == file.record.id && RecordOK(file.record)
  }

  /** The entries are the records of the files read so far. */
  ghost predicate ReadBack(files: Disk, entries: map<Id, Record>, read: set<Name>) {
    && read <= files.Keys && (forall name | name in read :: !name.OtherName?)
    && (forall id :: id in entries <==> RecordName(id) in read)
    && (forall id | id in entries ::
          RecordFileOK(files[RecordName(id)], id) && files[RecordName(id)].record == entries[id])
    && Sequenced(entries)
  }

  /** One past the greatest sequence, or one. */
  ghost predicate NextIs(next: int, entries: map<Id, Record>) {
    && next > 0
    && (forall id | id in entries :: entries[id].seqno < next)
    && (next == 1 || exists id :: id in entries && entries[id].seqno + 1 == next)
  }

  ghost predicate SeenSeqs(seen: set<int>, entries: map<Id, Record>) {
    && (forall id | id in entries :: entries[id].seqno in seen)
    && (forall q | q in seen :: exists id :: id in entries && entries[id].seqno == q)
  }

  lemma NothingRead(files: Disk)
    ensures ReadBack(files, map[], {}) && NextIs(1, map[]) && SeenSeqs({}, map[]) && Noted([], [], {})
  {
  }

  lemma ReadOne(files: Disk, entries: map<Id, Record>, read: set<Name>, record: Record)
    requires ReadBack(files, entries, read) && RecordName(record.id) in files && record.id !in entries
    requires RecordFileOK(files[RecordName(record.id)], record.id) && files[RecordName(record.id)].record == record
    requires forall id | id in entries :: entries[id].seqno != record.seqno
    ensures ReadBack(files, entries[record.id := record], read + {RecordName(record.id)})
  {
  }

  lemma ReadOther(files: Disk, entries: map<Id, Record>, read: set<Name>, name: Name)
    requires ReadBack(files, entries, read) && name in files && !name.RecordName? && !name.OtherName?
    ensures ReadBack(files, entries, read + {name})
  {
  }

  /** The identifiers of the sidecar files read so far. */
  ghost predicate Noted(heldIds: seq<Id>, backedOffIds: seq<Id>, read: set<Name>) {
    forall id :: (id in heldIds <==> HoldName(id) in read) && (id in backedOffIds <==> BackoffName(id) in read)
  }

  lemma NotedStep(heldIds: seq<Id>, backedOffIds: seq<Id>, read: set<Name>, name: Name)
    requires Noted(heldIds, backedOffIds, read)
    ensures name.HoldName? ==> Noted(heldIds + [name.id], backedOffIds, read + {name})
    ensures name.BackoffName? ==> Noted(heldIds, backedOffIds + [name.id], read + {name})
    ensures name.RecordName? || name.TempName? ==> Noted(heldIds, backedOffIds, read + {name})
  {
  }

  lemma NextStep(next: int, entries: map<Id, Record>, seen: set<int>, record: Record)
    requires NextIs(next, entries) && SeenSeqs(seen, entries) && record.id !in entries && record.seqno > 0
    ensures NextIs(Max(next, record.seqno + 1), entries[record.id := record])
    ensures SeenSeqs(seen + {record.seqno}, entries[record.id := record])
  {
    var entries' := entries[record.id := record];
    assert entries'[record.id].seqno == record.seqno;
    if next > record.seqno && next != 1 {
      var id :| id in entries && entries[id].seqno + 1 == next;
      assert id in entries' && entries'[id].seqno + 1 == next;
    }
    forall q | q in seen + {record.seqno} ensures exists id :: id in entries' && entries'[id].seqno == q {
      if q in seen {
        var id :| id in entries && entries[id].seqno == q;
        assert id in entries' && entries'[id].seqno == q;
      } else {
        assert record.id in entries';
      }
    }
  }

  /** Every check of one record file; nothing is read from a directory that does
      not load. */
  method ReadRecord(s: Settings, files: Disk, id: Id, seen: set<int>, entries: map<Id, Record>,
      ghost read: set<Name>) returns (r: Option<Record>)
    requires ReadBack(files, entries, read) && SeenSeqs(seen, entries) && RecordName(id) in files
             && RecordName(id) !in read
    ensures r.None? ==> !Loadable(s, files)
    ensures r.Some? ==> r.value.id == id && id !in entries && r.value.seqno > 0
    ensures r.Some? ==> ReadBack(files, entries[id := r.value], read + {RecordName(id)})
  {
    hide Loadable;
    var file := files[RecordName(id)];
    if !RecordFileOK(file, id) {
      if Loadable(s, files) { LoadableRecord(s, files, id); }
      return None;
    }
    var record := file.record;
    if record.seqno in seen {
      if Loadable(s, files) { LoadableSequence(s, files, entries, record, read); }
      return None;
    }
    ReadOne(files, entries, read, record);
    return Some(record);
  }

  predicate HoldFileOK(file: File, id: Id, entries: map<Id, Record>) {
    file.HoldFile? && file.hold.record == id && id in entries && ValidHold(file.hold, id)
  }

  predicate BackoffFileOK(file: File, id: Id, entries: map<Id, Record>) {
    file.BackoffFile? && file.backoff.record == id && id in entries && ValidBackoff(file.backoff)
  }

  ghost predicate HoldsRead(files: Disk, entries: map<Id, Record>, holds: map<Id, HoldRecord<Id>>) {
    && (forall id :: id in holds <==> HoldName(id) in files)
    && (forall id | id in holds ::
          HoldFileOK(files[HoldName(id)], id, entries) && files[HoldName(id)].hold == holds[id])
  }

  ghost predicate BackoffsRead(files: Disk, entries: map<Id, Record>, backoffs: map<Id, Backoff>) {
    && (forall id :: id in backoffs <==> BackoffName(id) in files)
    && (forall id | id in backoffs ::
          BackoffFileOK(files[BackoffName(id)], id, entries) && files[BackoffName(id)].backoff == backoffs[id])
  }

  lemma LoadableSidecars(s: Settings, disk: Disk, entries: map<Id, Record>, id: Id)
    requires Loadable(s, disk) && ReadBack(disk, entries, disk.Keys)
    ensures HoldName(id) in disk ==> HoldFileOK(disk[HoldName(id)], id, entries)
    ensures BackoffName(id) in disk ==> BackoffFileOK(disk[BackoffName(id)], id, entries)
  {
    var c :| Loads(s, disk, c);
    if HoldName(id) in disk { assert FileMatches(HoldName(id), disk[HoldName(id)], c); }
    if BackoffName(id) in disk { assert FileMatches(BackoffName(id), disk[BackoffName(id)], c); }
    assert Loadable(s, disk);
    OrphanRefuses(s, disk);
  }

  lemma LoadedLog(s: Settings, disk: Disk, entries: map<Id, Record>, order: seq<Id>, c: Content)
    requires Loads(s, disk, c) && ReadBack(disk, entries, disk.Keys) && Lists(order, entries)
             && Ordered(LogOf(order, entries))
    ensures c.log == LogOf(order, entries)
  {
    hide LogOf;
    forall r ensures r in c.log <==> r in LogOf(order, entries) {
      RecordOnDisk(s, disk, c, r);
      LogHas(order, entries, r);
    }
    SortedOnce(c.log, LogOf(order, entries));
  }

  lemma LoadableBounds(s: Settings, disk: Disk, entries: map<Id, Record>, order: seq<Id>)
    requires Loadable(s, disk) && ReadBack(disk, entries, disk.Keys) && Lists(order, entries)
             && Ordered(LogOf(order, entries))
    ensures |LogOf(order, entries)| <= s.maxItems && Sum(LogOf(order, entries), Everyone, true) <= s.maxBytes
  {
    hide LogOf, Sum;
    var c :| Loads(s, disk, c);
    LoadedLog(s, disk, entries, order, c);
  }

  lemma RefusesToStart(s: Settings, disk: Disk)
    requires !Loadable(s, disk)
    ensures Started(s, disk) == RefusedToStart
  {
  }

  lemma LoadedIsOK(s: Settings, disk: Disk, entries: map<Id, Record>, order: seq<Id>, holds: map<Id, HoldRecord<Id>>,
      backoffs: map<Id, Backoff>)
    requires ReadBack(disk, entries, disk.Keys) && Lists(order, entries) && Ordered(LogOf(order, entries))
    requires |LogOf(order, entries)| <= s.maxItems && Sum(LogOf(order, entries), Everyone, true) <= s.maxBytes
    requires HoldsRead(disk, entries, holds) && BackoffsRead(disk, entries, backoffs)
    ensures ContentOK(s, Content(LogOf(order, entries), holds, backoffs))
  {
    hide LogOf, Sum, ValidHold, ValidBackoff;
    var log := LogOf(order, entries);
    forall r | r in log ensures RecordOK(r) { LogHas(order, entries, r); }
    forall id | id in entries ensures Queued(log, id) {
      LogHas(order, entries, entries[id]);
      QueuedIn(log, entries[id]);
    }
    assert ContentOK(s, Content(log, holds, backoffs)) by {
      forall id | id in holds ensures Queued(log, id) && ValidHold(holds[id], id) {
        assert HoldFileOK(disk[HoldName(id)], id, entries);
      }
      forall id | id in backoffs ensures Queued(log, id) && ValidBackoff(backoffs[id]) {
        assert BackoffFileOK(disk[BackoffName(id)], id, entries);
      }
    }
  }

  lemma LoadedMatches(disk: Disk, entries: map<Id, Record>, order: seq<Id>, holds: map<Id, HoldRecord<Id>>,
      backoffs: map<Id, Backoff>)
    requires ReadBack(disk, entries, disk.Keys) && Lists(order, entries)
    requires HoldsRead(disk, entries, holds) && BackoffsRead(disk, entries, backoffs)
    ensures Mirrors(disk, Content(LogOf(order, entries), holds, backoffs))
            && Complete(disk, Content(LogOf(order, entries), holds, backoffs))
  {
    hide LogOf, ValidHold, ValidBackoff;
    var c := Content(LogOf(order, entries), holds, backoffs);
    forall r ensures r in c.log <==> r.id in entries && entries[r.id] == r { LogHas(order, entries, r); }
    forall name | name in disk ensures FileMatches(name, disk[name], c) {
      match name
      case RecordName(id) => assert id in entries;
      case HoldName(id) => assert id in holds;
      case BackoffName(id) => assert id in backoffs;
      case TempName =>
      case OtherName(_) => assert false;
    }
  }

  lemma LoadedNext(entries: map<Id, Record>, order: seq<Id>, next: int)
    requires Lists(order, entries) && Ordered(LogOf(order, entries)) && NextIs(next, entries)
    requires forall id | id in entries :: entries[id].seqno > 0
    ensures NextAfter(LogOf(order, entries)) == next
  {
    hide LogOf;
    var log := LogOf(order, entries);
    LogAt(order, entries);
    if log != [] {
      LogHas(order, entries, Last(log));
      assert Last(log) in log;
      var id :| id in entries && entries[id].seqno + 1 == next;
      LogHas(order, entries, entries[id]);
      LastIsGreatest(log, entries[id]);
    }
  }

  lemma LoadedAll(s: Settings, disk: Disk, entries: map<Id, Record>, order: seq<Id>, holds: map<Id, HoldRecord<Id>>,
      backoffs: map<Id, Backoff>, next: int)
    requires ReadBack(disk, entries, disk.Keys) && Lists(order, entries) && Ordered(LogOf(order, entries))
             && NextIs(next, entries)
    requires |LogOf(order, entries)| <= s.maxItems && Sum(LogOf(order, entries), Everyone, true) <= s.maxBytes
    requires HoldsRead(disk, entries, holds) && BackoffsRead(disk, entries, backoffs)
    ensures var st := Store(Content(LogOf(order, entries), holds, backoffs), next, disk - {TempName});
            Started(s, disk) == Serving(st) && Sound(s, st)
  {
    var c := Content(LogOf(order, entries), holds, backoffs);
    LoadedIsOK(s, disk, entries, order, holds, backoffs);
    LoadedMatches(disk, entries, order, holds, backoffs);
    LoadedNext(entries, order, next);
    hide LogOf, Sum, ContentOK, Mirrors, Complete, NextIs, ReadBack, HoldsRead, BackoffsRead;
    assert Loads(s, disk, c);
    StartedIsSound(s, disk);
    LoadsOnce(s, disk, c, Started(s, disk).store.content);
  }

  lemma LoadableRecord(s: Settings, disk: Disk, id: Id)
    requires Loadable(s, disk) && RecordName(id) in disk
    ensures RecordFileOK(disk[RecordName(id)], id)
  {
    var c :| Loads(s, disk, c);
    assert FileMatches(RecordName(id), disk[RecordName(id)], c);
  }

  lemma LoadableSequence(s: Settings, disk: Disk, entries: map<Id, Record>, record: Record, read: set<Name>)
    requires Loadable(s, disk) && ReadBack(disk, entries, read)
    requires RecordName(record.id) in disk && disk[RecordName(record.id)] == RecordFile(1, record.id, record)
             && record.id !in entries
    ensures forall id | id in entries :: entries[id].seqno != record.seqno
  {
    forall id | id in entries ensures entries[id].seqno != record.seqno {
      SequenceTwiceRefuses(s, disk, entries[id], record);
    }
  }

  lemma EntriesBelow(order: seq<Id>, entries: map<Id, Record>, next: int)
    requires Lists(order, entries) && Ordered(LogOf(order, entries))
             && (forall r | r in LogOf(order, entries) :: r.seqno < next)
    ensures forall id | id in entries :: entries[id].seqno < next
    ensures Sequenced(entries)
    ensures forall record: Record | record.seqno == next && record.id !in entries ::
              Sequenced(entries[record.id := record])
  {
    hide LogOf;
    forall id | id in entries ensures entries[id] in LogOf(order, entries) { LogHas(order, entries, entries[id]); }
    forall id, id' | id in entries && id' in entries && entries[id].seqno == entries[id'].seqno ensures id == id' {
      SameRecord(LogOf(order, entries), entries[id], entries[id']);
    }
  }

  lemma AppendStaysSorted(ids: seq<Id>, before: map<Id, Record>, record: Record, order: seq<Id>)
    requires Lists(ids, before) && Ordered(LogOf(ids, before)) && record.id !in before
    requires forall id | id in before :: before[id].seqno < record.seqno
    requires Lists(order, before[record.id := record]) && Ordered(LogOf(order, before[record.id := record]))
    ensures LogOf(order, before[record.id := record]) == LogOf(ids, before) + [record]
  {
    hide LogOf;
    var log, entries := LogOf(ids, before), before[record.id := record];
    forall r ensures r in LogOf(order, entries) <==> r in log + [record] {
      LogHas(order, entries, r);
      LogHas(ids, before, r);
    }
    LogAt(ids, before);
    SortedOnce(LogOf(order, entries), log + [record]);
  }
}
